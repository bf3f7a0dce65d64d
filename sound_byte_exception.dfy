/** The error value every backend call reports: a title, a description and a glyph. */
module SoundByteExceptions {
  import Strings

  /** An immutable error value; its three parts are fixed when it is made. */
  datatype SoundByteException = SoundByteException(errorTitle: string, errorDescription: string, errorGlyph: string)
  {
    /** The exception message the constructor passes to its base class. */
    function Message(): string {
      "Title: " + errorTitle + ", Description: " + errorDescription
    }
  }

  const TitleLabel := "Title: "
  const DescriptionLabel := ", Description: "

  /** The message is the title label, the title, the description label and the description, in that order. */
  lemma MessageLayout(e: SoundByteException)
    ensures |e.Message()| == |TitleLabel| + |e.errorTitle| + |DescriptionLabel| + |e.errorDescription|
    ensures e.Message()[..|TitleLabel|] == TitleLabel
    ensures e.Message()[|TitleLabel|..|TitleLabel| + |e.errorTitle|] == e.errorTitle
    ensures e.Message()[|TitleLabel| + |e.errorTitle| + |DescriptionLabel|..] == e.errorDescription
  {
  }

  /** While titles hold no comma, the message tells apart any two errors that differ in title or
      description: the first comma of the message ends the title. */
  lemma MessageDeterminesTitleAndDescription(a: SoundByteException, b: SoundByteException)
    requires ',' !in a.errorTitle && ',' !in b.errorTitle
    requires a.Message() == b.Message()
    ensures a.errorTitle == b.errorTitle && a.errorDescription == b.errorDescription
  {
    var rest := " Description: ";
    assert DescriptionLabel == [','] + rest;
    assert a.Message() == (TitleLabel + a.errorTitle) + [','] + (rest + a.errorDescription);
    assert b.Message() == (TitleLabel + b.errorTitle) + [','] + (rest + b.errorDescription);
    Strings.IndexOfAfterPrefix(TitleLabel + a.errorTitle, ',', rest + a.errorDescription);
    Strings.IndexOfAfterPrefix(TitleLabel + b.errorTitle, ',', rest + b.errorDescription);
    MessageLayout(a);
    MessageLayout(b);
  }
}
