/**
 * Plain JSON values and the object spread `{ ...base, ...top }` the application uses to merge
 * settings, together with the default application settings.
 */
module Json {
  /** A JSON value as the stores keep it; numbers are integers here. */
  datatype Json =
    | JNull
    | JBool(b: bool)
    | JNumber(n: int)
    | JString(s: string)
    | JArray(items: seq<Json>)
    | JObject(fields: map<string, Json>)

  /** The application settings, field name to value; optional fields are absent keys. */
  type Config = map<string, Json>

  /**
   * `{ ...base, ...top }`: every key of either object, with the value from `top` where both
   * have the key.
   */
  function Overlay<V>(base: map<string, V>, top: map<string, V>): (r: map<string, V>)
    ensures r.Keys == base.Keys + top.Keys
    ensures forall k :: k in top ==> r[k] == top[k]
    ensures forall k :: k in base && k !in top ==> r[k] == base[k]
  {
    base + top
  }

  /** Overlaying the same object twice is overlaying it once. */
  lemma OverlayIdempotent<V>(base: map<string, V>, top: map<string, V>)
    ensures Overlay(Overlay(base, top), top) == Overlay(base, top)
  {
  }

  /** Overlaying with an empty object changes nothing. */
  lemma OverlayEmpty<V>(base: map<string, V>)
    ensures Overlay(base, map[]) == base
  {
  }

  /** The default settings: English, dark theme, tray on close, notifications and server sync on. */
  const DefaultConfig: Config := map[
    "language" := JString("en"),
    "theme" := JString("dark"),
    "startMinimized" := JBool(false),
    "minimizeToTray" := JBool(true),
    "autoStart" := JBool(false),
    "showNotifications" := JBool(true),
    "enableAnalytics" := JBool(false),
    "autoSyncServers" := JBool(true)
  ]
}
