/** The upload page: picking the audio file, checking that the form is complete, building the
    multipart form sent to SoundCloud, and resetting the page after an error. */
module UploadViews {
  import opened Wrappers
  import opened Strings
  import opened Decimal

  /** The largest file the page accepts is one byte under 5 GiB. */
  const MaxFileBytes := 5368709120
  /** 405 minutes, in 100-nanosecond ticks. */
  const MaxDurationTicks := 405 * 60 * 10000000

  /** A picked audio file: its name, display name, size and duration. */
  datatype MusicFile = MusicFile(name: string, displayName: string, sizeBytes: nat, durationTicks: nat)

  /** A picked artwork file: its name and content type. */
  datatype ImageFile = ImageFile(name: string, contentType: string)

  /** The size and duration test on a picked audio file. */
  predicate AcceptablePick(f: MusicFile) {
    f.sizeBytes < MaxFileBytes && f.durationTicks < MaxDurationTicks
  }

  /** The precondition of an upload: there is audio to send, and the name and the tags are
      filled in. */
  predicate CanUpload(musicFile: Option<MusicFile>, hasAudioStream: bool, trackName: string, trackTags: string) {
    (musicFile.Some? || hasAudioStream) && trackName != "" && trackTags != ""
  }

  /** What a form part carries. */
  datatype PartValue = Text(text: string) | MusicData(file: MusicFile) | StreamData | ImageData(image: ImageFile)

  /** The fields of the upload form, in the order the page adds them. */
  datatype Field = AssetData | Title | TagList | Description | ArtworkData | Sharing | PurchaseUrl | VideoUrl
                 | ReleaseYear | ReleaseMonth | ReleaseDay | Release | Isrc | Bpm | License | Type | Genre | Downloadable

  /** A field's name on the wire: its snake-case key inside `track[...]`. */
  function FieldName(f: Field): (r: string)
    ensures |r| > 7 && r[..6] == "track[" && r[|r| - 1] == ']'
  {
    match f
    case AssetData => "track[asset_data]"
    case Title => "track[title]"
    case TagList => "track[tag_list]"
    case Description => "track[description]"
    case ArtworkData => "track[artwork_data]"
    case Sharing => "track[sharing]"
    case PurchaseUrl => "track[purchase_url]"
    case VideoUrl => "track[video_url]"
    case ReleaseYear => "track[release_year]"
    case ReleaseMonth => "track[release_month]"
    case ReleaseDay => "track[release_day]"
    case Release => "track[release]"
    case Isrc => "track[isrc]"
    case Bpm => "track[bpm]"
    case License => "track[license]"
    case Type => "track[type]"
    case Genre => "track[genre]"
    case Downloadable => "track[downloadable]"
  }

  /** A part of the multipart form: its field, its content and, for files, a file name. */
  datatype Part = Part(field: Field, value: PartValue, fileName: Option<string>)

  /** The rest of the form: the three selections (`None` when nothing is selected), the
      optional texts, the release date and the download switch. */
  datatype TrackDetails = TrackDetails(
    privacy: Option<string>,
    purchaseUrl: string,
    videoUrl: string,
    releaseYear: int,
    releaseMonth: int,
    releaseDay: int,
    recordNumber: string,
    isrc: string,
    bpm: string,
    license: Option<string>,
    trackType: Option<string>,
    genre: string,
    downloadable: bool)

  /** How building the form ends. `NoTrackFile` means there was no audio. `Raised` means a
      selection was empty, so encoding its null text raised. */
  datatype FormOutcome = Built(parts: seq<Part>) | NoTrackFile | Raised

  /** The part holding `value`, added only when the text is not empty. */
  function OptionalText(name: Field, value: string): (r: seq<Part>)
    ensures value == "" ==> r == []
    ensures value != "" ==> r == [Part(name, Text(value), None)]
  {
    if value == "" then [] else [Part(name, Text(value), None)]
  }

  /** A selection's text as a form value: lower-cased, with spaces turned into dashes. */
  function Slug(s: string): (r: string)
    ensures |r| == |s|
    ensures forall i :: 0 <= i < |r| ==> r[i] != ' ' && !('A' <= r[i] <= 'Z')
    ensures forall i :: 0 <= i < |s| && s[i] == ' ' ==> r[i] == '-'
    ensures forall i :: 0 <= i < |s| && 'A' <= s[i] <= 'Z' ==> r[i] == s[i] + ('a' - 'A')
    ensures forall i :: 0 <= i < |s| && s[i] != ' ' && !('A' <= s[i] <= 'Z') ==> r[i] == s[i]
  {
    ReplaceChar(ToLower(s), ' ', '-')
  }

  /** The form, part by part, in the order the page adds them. */
  function BuildForm(musicFile: Option<MusicFile>, hasAudioStream: bool, trackName: string, trackTags: string,
                     description: string, image: Option<ImageFile>, d: TrackDetails): (r: FormOutcome)
  {
    if musicFile.None? && !hasAudioStream then NoTrackFile
    else if d.privacy.None? || d.license.None? || d.trackType.None? then Raised
    else Built(TrackSection(musicFile, trackName, trackTags, description, image)
               + PublishingSection(d) + RecordingSection(d))
  }

  /** The audio, the title, the tags, the description and the artwork. Without a music file
      the audio is the recorded stream. */
  function TrackSection(musicFile: Option<MusicFile>, trackName: string, trackTags: string,
                        description: string, image: Option<ImageFile>): seq<Part>
  {
    var asset := if musicFile.Some? then Part(AssetData, MusicData(musicFile.value), Some(musicFile.value.name))
                 else Part(AssetData, StreamData, Some("stream.mp3"));
    var tags := if trackTags != "" then [Part(TagList, Text(Join(',', Split(trackTags, ','))), None)] else [];
    var artwork := if image.Some? then [Part(ArtworkData, ImageData(image.value), Some(image.value.name))] else [];
    [asset, Part(Title, Text(trackName), None)] + tags + OptionalText(Description, description) + artwork
  }

  /** The sharing choice, the two links and the release date. */
  function PublishingSection(d: TrackDetails): seq<Part>
    requires d.privacy.Some?
  {
    [Part(Sharing, Text(ToLower(d.privacy.value)), None)]
    + OptionalText(PurchaseUrl, d.purchaseUrl)
    + OptionalText(VideoUrl, d.videoUrl)
    + [Part(ReleaseYear, Text(IntToString(d.releaseYear)), None),
       Part(ReleaseMonth, Text(IntToString(d.releaseMonth)), None),
       Part(ReleaseDay, Text(IntToString(d.releaseDay)), None)]
  }

  /** The record number, the ISRC, the tempo, the license, the type, the genre and the
      download switch. */
  function RecordingSection(d: TrackDetails): seq<Part>
    requires d.license.Some? && d.trackType.Some?
  {
    OptionalText(Release, d.recordNumber)
    + OptionalText(Isrc, d.isrc)
    + OptionalText(Bpm, d.bpm)
    + [Part(License, Text(Slug(d.license.value)), None),
       Part(Type, Text(Slug(d.trackType.value)), None)]
    + OptionalText(Genre, d.genre)
    + [Part(Downloadable, Text(BoolText(d.downloadable)), None)]
  }

  /** The fields of a form, in order. */
  function Names(parts: seq<Part>): (r: seq<Field>)
    ensures |r| == |parts|
    ensures forall i :: 0 <= i < |parts| ==> r[i] == parts[i].field
  {
    seq(|parts|, i requires 0 <= i < |parts| => parts[i].field)
  }

  /** `[f]` when `present`, otherwise nothing. */
  function Opt(present: bool, f: Field): (r: seq<Field>)
    ensures forall g :: g in r <==> present && g == f
  {
    if present then [f] else []
  }

  lemma NamesOptional(f: Field, value: string)
    ensures Names(OptionalText(f, value)) == Opt(value != "", f)
  {
  }

  lemma {:induction false} NamesAppend(a: seq<Part>, b: seq<Part>)
    ensures Names(a + b) == Names(a) + Names(b)
  {
    assert |Names(a + b)| == |Names(a) + Names(b)|;
  }

  /** The form is built whenever there is audio and all three selections are made; it then
      starts with the audio, taken from the file when there is one. */
  lemma FormBuilt(musicFile: Option<MusicFile>, hasAudioStream: bool, trackName: string, trackTags: string,
                  description: string, image: Option<ImageFile>, d: TrackDetails)
    ensures var r := BuildForm(musicFile, hasAudioStream, trackName, trackTags, description, image, d);
            && (r.NoTrackFile? <==> musicFile.None? && !hasAudioStream)
            && (r.Raised? <==> (musicFile.Some? || hasAudioStream) && (d.privacy.None? || d.license.None? || d.trackType.None?))
            && (r.Built? && musicFile.Some? ==> r.parts[0] == Part(AssetData, MusicData(musicFile.value), Some(musicFile.value.name)))
            && (r.Built? && musicFile.None? ==> r.parts[0] == Part(AssetData, StreamData, Some("stream.mp3")))
            && (r.Built? ==> r.parts[1] == Part(Title, Text(trackName), None))
  {
  }

  /** The tag field is the tags text split on commas and joined again, which is the text
      itself. */
  lemma TagsSentVerbatim(musicFile: Option<MusicFile>, hasAudioStream: bool, trackName: string, trackTags: string,
                         description: string, image: Option<ImageFile>, d: TrackDetails)
    requires BuildForm(musicFile, hasAudioStream, trackName, trackTags, description, image, d).Built?
    requires trackTags != ""
    ensures BuildForm(musicFile, hasAudioStream, trackName, trackTags, description, image, d).parts[2] ==
            Part(TagList, Text(trackTags), None)
  {
    JoinSplit(trackTags, ',');
  }

  /** Whether the page sends field `g`: each optional text when it is not empty, the artwork
      when an image was picked, every other field always. */
  predicate Sent(g: Field, trackTags: string, description: string, image: Option<ImageFile>, d: TrackDetails) {
    match g
    case TagList => trackTags != ""
    case Description => description != ""
    case ArtworkData => image.Some?
    case PurchaseUrl => d.purchaseUrl != ""
    case VideoUrl => d.videoUrl != ""
    case Release => d.recordNumber != ""
    case Isrc => d.isrc != ""
    case Bpm => d.bpm != ""
    case Genre => d.genre != ""
    case _ => true
  }

  /** A built form names exactly the fields the page sends. */
  lemma FieldsPresent(musicFile: Option<MusicFile>, hasAudioStream: bool, trackName: string, trackTags: string,
                      description: string, image: Option<ImageFile>, d: TrackDetails)
    requires BuildForm(musicFile, hasAudioStream, trackName, trackTags, description, image, d).Built?
    ensures var names := Names(BuildForm(musicFile, hasAudioStream, trackName, trackTags, description, image, d).parts);
            forall g :: g in names <==> Sent(g, trackTags, description, image, d)
  {
    var t := TrackSection(musicFile, trackName, trackTags, description, image);
    var parts := BuildForm(musicFile, hasAudioStream, trackName, trackTags, description, image, d).parts;
    assert parts == t + PublishingSection(d) + RecordingSection(d);
    NamesAppend(t, PublishingSection(d));
    NamesAppend(t + PublishingSection(d), RecordingSection(d));
    assert Names(parts) == Names(t) + Names(PublishingSection(d)) + Names(RecordingSection(d));
    TrackSectionFields(musicFile, trackName, trackTags, description, image);
    PublishingSectionFields(d);
    RecordingSectionFields(d);
  }

  lemma TrackSectionFields(musicFile: Option<MusicFile>, trackName: string, trackTags: string,
                           description: string, image: Option<ImageFile>)
    ensures forall g :: g in Names(TrackSection(musicFile, trackName, trackTags, description, image)) <==>
              g == AssetData || g == Title || (g == TagList && trackTags != "")
              || (g == Description && description != "") || (g == ArtworkData && image.Some?)
  {
    TrackSectionNames(musicFile, trackName, trackTags, description, image);
  }

  lemma PublishingSectionFields(d: TrackDetails)
    requires d.privacy.Some?
    ensures forall g :: g in Names(PublishingSection(d)) <==>
              g == Sharing || (g == PurchaseUrl && d.purchaseUrl != "") || (g == VideoUrl && d.videoUrl != "")
              || g == ReleaseYear || g == ReleaseMonth || g == ReleaseDay
  {
    PublishingSectionNames(d);
  }

  lemma RecordingSectionFields(d: TrackDetails)
    requires d.license.Some? && d.trackType.Some?
    ensures forall g :: g in Names(RecordingSection(d)) <==>
              (g == Release && d.recordNumber != "") || (g == Isrc && d.isrc != "") || (g == Bpm && d.bpm != "")
              || g == License || g == Type || (g == Genre && d.genre != "") || g == Downloadable
  {
    RecordingSectionNames(d);
  }

  lemma TrackSectionNames(musicFile: Option<MusicFile>, trackName: string, trackTags: string,
                          description: string, image: Option<ImageFile>)
    ensures Names(TrackSection(musicFile, trackName, trackTags, description, image)) ==
            [AssetData, Title] + Opt(trackTags != "", TagList)
            + Opt(description != "", Description) + Opt(image.Some?, ArtworkData)
  {
    var asset := if musicFile.Some? then Part(AssetData, MusicData(musicFile.value), Some(musicFile.value.name))
                 else Part(AssetData, StreamData, Some("stream.mp3"));
    var a0 := [asset, Part(Title, Text(trackName), None)];
    var a1 := if trackTags != "" then [Part(TagList, Text(Join(',', Split(trackTags, ','))), None)] else [];
    var a2 := OptionalText(Description, description);
    NamesAppend(a0, a1);
    NamesAppend(a0 + a1, a2);
    NamesAppend(a0 + a1 + a2, if image.Some? then [Part(ArtworkData, ImageData(image.value), Some(image.value.name))] else []);
  }

  lemma PublishingSectionNames(d: TrackDetails)
    requires d.privacy.Some?
    ensures Names(PublishingSection(d)) ==
            [Sharing] + Opt(d.purchaseUrl != "", PurchaseUrl) + Opt(d.videoUrl != "", VideoUrl)
            + [ReleaseYear, ReleaseMonth, ReleaseDay]
  {
    var a0 := [Part(Sharing, Text(ToLower(d.privacy.value)), None)];
    var a1 := OptionalText(PurchaseUrl, d.purchaseUrl);
    var a2 := OptionalText(VideoUrl, d.videoUrl);
    NamesAppend(a0, a1);
    NamesAppend(a0 + a1, a2);
    NamesAppend(a0 + a1 + a2, [Part(ReleaseYear, Text(IntToString(d.releaseYear)), None),
                               Part(ReleaseMonth, Text(IntToString(d.releaseMonth)), None),
                               Part(ReleaseDay, Text(IntToString(d.releaseDay)), None)]);
  }

  lemma RecordingSectionNames(d: TrackDetails)
    requires d.license.Some? && d.trackType.Some?
    ensures Names(RecordingSection(d)) ==
            Opt(d.recordNumber != "", Release) + Opt(d.isrc != "", Isrc)
            + Opt(d.bpm != "", Bpm) + [License, Type]
            + Opt(d.genre != "", Genre) + [Downloadable]
  {
    var a0 := OptionalText(Release, d.recordNumber);
    var a1 := OptionalText(Isrc, d.isrc);
    var a2 := OptionalText(Bpm, d.bpm);
    var a3 := [Part(License, Text(Slug(d.license.value)), None), Part(Type, Text(Slug(d.trackType.value)), None)];
    var a4 := OptionalText(Genre, d.genre);
    NamesAppend(a0, a1);
    NamesAppend(a0 + a1, a2);
    NamesAppend(a0 + a1 + a2, a3);
    NamesAppend(a0 + a1 + a2 + a3, a4);
    NamesAppend(a0 + a1 + a2 + a3 + a4, [Part(Downloadable, Text(BoolText(d.downloadable)), None)]);
  }

  /** The last part of a built form is the download switch, sent as "true" or "false". */
  lemma DownloadableLast(musicFile: Option<MusicFile>, hasAudioStream: bool, trackName: string, trackTags: string,
                         description: string, image: Option<ImageFile>, d: TrackDetails)
    requires BuildForm(musicFile, hasAudioStream, trackName, trackTags, description, image, d).Built?
    ensures var parts := BuildForm(musicFile, hasAudioStream, trackName, trackTags, description, image, d).parts;
            |parts| > 0 && parts[|parts| - 1].field == Downloadable
            && parts[|parts| - 1].value == Text(if d.downloadable then "true" else "false")
  {
  }

  /** A message box: its text and its title. */
  datatype Dialog = Dialog(text: string, title: string)

  const IncompleteText := "Make sure that you have picked a file and filled in the required information."
  const UploadErrorTitle := "Upload Error"
  const CompleteText := "Your track has been uploaded and SoundCloud is currently processing it."
  const CompleteTitle := "Upload Complete"
  const FailedText := "An Error Occured while trying to upload your track. Please try again later."
  const PickTooLargeText := "Pick a file that is under 5gbs or is less than 6 hours and 45 minutes long"

  /** How the upload request ended: a success status, another status, or an exception raised by the post itself. */
  datatype PostResult = Succeeded | Failed | Threw

  /** Where the cancel button leaves the user when no upload was started. */
  datatype Navigation = Stay | Back | Home

  /** The page's state: the picked files, the three text boxes, the buttons, and whether an
      upload was ever started (its cancellation source exists). The recorded stream is never
      set, so `hasAudioStream` is always false. */
  class UploadView {
    const hasAudioStream: bool
    var musicFile: Option<MusicFile>
    var imageFile: Option<ImageFile>
    var trackName: string
    var trackTags: string
    var description: string
    var uploadEnabled: bool
    var cancelEnabled: bool
    var recordingEnabled: bool
    var cancelTokenSet: bool

    constructor ()
      ensures !hasAudioStream && musicFile == None && imageFile == None
      ensures trackName == "" && trackTags == "" && description == ""
      ensures uploadEnabled && cancelEnabled && recordingEnabled && !cancelTokenSet
    {
      hasAudioStream := false;
      musicFile := None;
      imageFile := None;
      trackName := "";
      trackTags := "";
      description := "";
      uploadEnabled := true;
      cancelEnabled := true;
      recordingEnabled := true;
      cancelTokenSet := false;
    }

    /** What the error handler and the cancel button clear: the artwork file and the three
        text boxes. The music file is kept. */
    method ClearForm()
      modifies this
      ensures uploadEnabled && cancelEnabled
      ensures imageFile == None && trackName == "" && description == "" && trackTags == ""
      ensures musicFile == old(musicFile) && recordingEnabled == old(recordingEnabled)
      ensures cancelTokenSet == old(cancelTokenSet)
    {
      uploadEnabled := true;
      cancelEnabled := true;
      imageFile := None;
      trackName := "";
      description := "";
      trackTags := "";
    }

    /** `UploadButton_Tapped`. `d` is the rest of the form and `post` how the request ended.
        `sent` is the form posted, if any. */
    method UploadButtonTapped(d: TrackDetails, post: PostResult) returns (sent: Option<seq<Part>>, dialog: Dialog)
      modifies this
      ensures uploadEnabled && cancelEnabled && musicFile == old(musicFile) && recordingEnabled == old(recordingEnabled)
      ensures !CanUpload(old(musicFile), hasAudioStream, old(trackName), old(trackTags)) ==>
                sent == None && dialog == Dialog(IncompleteText, UploadErrorTitle)
                && imageFile == old(imageFile) && trackName == old(trackName) && trackTags == old(trackTags)
                && description == old(description) && cancelTokenSet == old(cancelTokenSet)
      ensures CanUpload(old(musicFile), hasAudioStream, old(trackName), old(trackTags)) ==>
                var form := BuildForm(old(musicFile), hasAudioStream, old(trackName), old(trackTags), old(description), old(imageFile), d);
                && (form.Built? ==> sent == Some(form.parts) && cancelTokenSet)
                && (form.Raised? ==> sent == None && cancelTokenSet == old(cancelTokenSet))
                && (form.Built? && post == Succeeded ==> dialog == Dialog(CompleteText, CompleteTitle))
                && (form.Raised? || post != Succeeded ==> dialog == Dialog(FailedText, UploadErrorTitle))
                && (form.Raised? || post == Threw ==>
                      imageFile == None && trackName == "" && description == "" && trackTags == "")
                && (form.Built? && post != Threw ==>
                      imageFile == old(imageFile) && trackName == old(trackName) && trackTags == old(trackTags)
                      && description == old(description))
    {
      uploadEnabled := false;
      cancelEnabled := false;
      if !CanUpload(musicFile, hasAudioStream, trackName, trackTags) {
        uploadEnabled := true;
        cancelEnabled := true;
        return None, Dialog(IncompleteText, UploadErrorTitle);
      }
      var form := BuildForm(musicFile, hasAudioStream, trackName, trackTags, description, imageFile, d);
      match form {
        case NoTrackFile =>
          // The guard above has already refused an upload without audio.
          assert false;
        case Raised =>
          ClearForm();
          sent, dialog := None, Dialog(FailedText, UploadErrorTitle);
        case Built(parts) =>
          cancelTokenSet := true;
          sent := Some(parts);
          match post {
            case Succeeded =>
              dialog := Dialog(CompleteText, CompleteTitle);
              uploadEnabled := true;
              cancelEnabled := true;
            case Failed =>
              uploadEnabled := true;
              cancelEnabled := true;
              dialog := Dialog(FailedText, UploadErrorTitle);
            case Threw =>
              ClearForm();
              dialog := Dialog(FailedText, UploadErrorTitle);
          }
      }
    }

    /** `CancelButton_Tapped`. Once an upload has been started the button cancels it and
        clears the form; before that it leaves the page, back when it can go back and home
        otherwise. */
    method CancelButtonTapped(canGoBack: bool) returns (navigation: Navigation)
      modifies this
      ensures old(cancelTokenSet) ==>
                navigation == Stay && uploadEnabled && cancelEnabled
                && imageFile == None && trackName == "" && description == "" && trackTags == ""
      ensures !old(cancelTokenSet) ==>
                navigation == (if canGoBack then Back else Home)
                && uploadEnabled == old(uploadEnabled) && cancelEnabled == old(cancelEnabled)
                && imageFile == old(imageFile) && trackName == old(trackName)
                && description == old(description) && trackTags == old(trackTags)
      ensures musicFile == old(musicFile) && recordingEnabled == old(recordingEnabled) && cancelTokenSet == old(cancelTokenSet)
    {
      if cancelTokenSet {
        ClearForm();
        return Stay;
      }
      navigation := if canGoBack then Back else Home;
    }

    /** `TrackImageBrowser_Tapped`: a picked image becomes the artwork; cancelling the picker
        keeps the artwork already picked. */
    method TrackImageBrowserTapped(picked: Option<ImageFile>)
      modifies this
      ensures imageFile == (if picked.Some? then picked else old(imageFile))
      ensures musicFile == old(musicFile) && trackName == old(trackName) && trackTags == old(trackTags)
      ensures description == old(description) && uploadEnabled == old(uploadEnabled) && cancelEnabled == old(cancelEnabled)
      ensures recordingEnabled == old(recordingEnabled) && cancelTokenSet == old(cancelTokenSet)
    {
      if picked.Some? {
        imageFile := picked;
      }
    }

    /** `UploadRecording_Tapped`. A picked file that is too large or too long is refused with a
        message, and the pick button then stays disabled. An accepted file becomes the music
        file and its display name the track name. */
    method UploadRecordingTapped(picked: Option<MusicFile>) returns (dialog: Option<Dialog>)
      modifies this
      ensures picked.None? ==> dialog == None && recordingEnabled && musicFile == old(musicFile) && trackName == old(trackName)
      ensures picked.Some? && !AcceptablePick(picked.value) ==>
                dialog == Some(Dialog(PickTooLargeText, UploadErrorTitle)) && !recordingEnabled
                && musicFile == old(musicFile) && trackName == old(trackName)
      ensures picked.Some? && AcceptablePick(picked.value) ==>
                dialog == None && recordingEnabled && musicFile == picked && trackName == picked.value.displayName
      ensures imageFile == old(imageFile) && trackTags == old(trackTags) && description == old(description)
      ensures uploadEnabled == old(uploadEnabled) && cancelEnabled == old(cancelEnabled) && cancelTokenSet == old(cancelTokenSet)
    {
      recordingEnabled := false;
      if picked.None? {
        recordingEnabled := true;
        return None;
      }
      var file := picked.value;
      if file.sizeBytes >= 5368709120 || file.durationTicks >= 405 * 60 * 10000000 {
        return Some(Dialog(PickTooLargeText, UploadErrorTitle));
      }
      musicFile := picked;
      trackName := file.displayName;
      recordingEnabled := true;
      dialog := None;
    }
  }
}
