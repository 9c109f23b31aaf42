/**
 * The initial form values of the demo pages. Each comes from the optional
 * local configuration file, the browser's local storage, or a built-in
 * default. The peer id uses `??`, which falls through only when a value is
 * absent. The API key uses `||`, which also falls through on an empty string.
 * Reading the file and the storage is not modelled: the values read are
 * parameters (None for an absent value).
 */
module Settings {
  import opened Handles

  const DefaultPeerId: string := "000000000000000000"
  const NoKey: string := "NO_KEY"

  /** `config.peerId ?? stored ?? "000000000000000000"`. */
  function InitialPeerId(configPeerId: Option<string>, storedPeerId: Option<string>): (r: string)
    ensures configPeerId.Some? ==> r == configPeerId.value
    ensures configPeerId.None? && storedPeerId.Some? ==> r == storedPeerId.value
    ensures configPeerId.None? && storedPeerId.None? ==> r == DefaultPeerId
  {
    match configPeerId
    case Some(p) => p
    case None =>
      match storedPeerId
      case Some(p) => p
      case None => DefaultPeerId
  }

  /** JavaScript truthiness of an optional string: present and not empty. */
  predicate Truthy(v: Option<string>)
  {
    v.Some? && v.value != ""
  }

  /** `stored || config.apiKey || "NO_KEY"`. */
  function InitialApiKey(storedApiKey: Option<string>, configApiKey: Option<string>): (r: string)
    ensures r != ""
    ensures Truthy(storedApiKey) ==> r == storedApiKey.value
    ensures !Truthy(storedApiKey) && Truthy(configApiKey) ==> r == configApiKey.value
    ensures !Truthy(storedApiKey) && !Truthy(configApiKey) ==> r == NoKey
  {
    if Truthy(storedApiKey) then storedApiKey.value
    else if Truthy(configApiKey) then configApiKey.value
    else NoKey
  }

  /**
   * The two chains treat an empty string differently: an empty configured
   * peer id is used as it is, while an empty stored API key falls through.
   */
  lemma {:induction false} EmptyStringFallThrough(stored: string, configured: string)
    requires configured != ""
    ensures InitialPeerId(Some(""), Some(stored)) == ""
    ensures InitialApiKey(Some(""), Some(configured)) == configured
  {
  }
}
