/** Map helpers (src/utils/map.js): the choice of the tile layer URL under the high-contrast
    accessibility setting. */
module MapUtils {
  import opened Js

  /** `getCorrectContrastMapTileUrl(normal, highContrast, enabled)`: the high-contrast tiles
      when the setting is on and such tiles are configured, the normal tiles otherwise. The
      arguments are whatever the configuration holds, so either URL may be missing. */
  function CorrectContrastMapTileUrl(normalMapTilesUrl: Value, highContrastMapTilesUrl: Value,
                                     isHighContrastEnabled: Value): (r: Value)
    ensures r == normalMapTilesUrl || r == highContrastMapTilesUrl
    ensures Truthy(isHighContrastEnabled) && Truthy(highContrastMapTilesUrl) ==> r == highContrastMapTilesUrl
    ensures !Truthy(isHighContrastEnabled) ==> r == normalMapTilesUrl
    ensures !Truthy(highContrastMapTilesUrl) ==> r == normalMapTilesUrl
  {
    if Truthy(isHighContrastEnabled) && Truthy(highContrastMapTilesUrl) then highContrastMapTilesUrl
    else normalMapTilesUrl
  }
}
