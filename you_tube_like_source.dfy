/** The YouTube likes source, which has no parameters and never yields items. */
module YouTubeLikeSources {
  import opened Wrappers
  import opened Items
  import opened Paging

  /** The source; it keeps no state. */
  datatype YouTubeLikeSource = YouTubeLikeSource

  /** `GetParameters`: there are none. */
  function GetParameters<V>(source: YouTubeLikeSource): (r: map<string, V>)
    ensures |r| == 0
  {
    map[]
  }

  /** `ApplyParameters`: any parameters leave the source as it was. */
  function ApplyParameters<V>(source: YouTubeLikeSource, data: map<string, V>): (r: YouTubeLikeSource)
    ensures r == source
  {
    source
  }

  /** The localised title and description of the "no YouTube account" message
      (the resource file is not part of this model). */
  datatype NoAccountText = NoAccountText(title: string, description: string)

  /** `GetItemsAsync`: with no YouTube account, the "no account" failure; with one, the
      "Under Development" failure. */
  function GetItemsAsync(source: YouTubeLikeSource, count: int, token: Option<string>,
                         connected: bool, noAccount: NoAccountText): (r: SourceResponse<BaseTrack>)
    ensures !r.isSuccess && r.items == None && r.token == None
    ensures !connected ==> r.messageTitle == Some(noAccount.title) && r.messageContent == Some(noAccount.description)
    ensures connected ==> r.messageTitle == Some("Under Development") &&
                          r.messageContent == Some("This is still under development")
  {
    if !connected then Failed(noAccount.title, noAccount.description)
    else Failed("Under Development", "This is still under development")
  }

  /** Applying the source's own parameters changes nothing. */
  lemma ParametersRoundTrip<V>(source: YouTubeLikeSource)
    ensures ApplyParameters(source, GetParameters<V>(source)) == source
  {
  }
}
