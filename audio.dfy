/**
 * The browser's audio file handling (`AudioHandler`): upload validation that
 * reports every violation, the extension fallback, duration formatting, and
 * the bookkeeping of the object URLs created for previews.
 */
module Audio {
  import opened Wrappers
  import opened Strings
  import opened Http

  const MaxFileSize: nat := 50 * 1024 * 1024

  const SupportedTypes: seq<string> :=
    ["audio/mpeg", "audio/wav", "audio/mp4", "audio/m4a", "audio/ogg", "audio/flac", "audio/webm"]

  const SupportedExtensions: seq<string> := [".mp3", ".wav", ".mp4", ".m4a", ".ogg", ".flac", ".webm"]

  // ------------------------------------------------------------ extension

  /**
   * The lower-cased suffix of `filename` from its last '.'; a name without a
   * dot yields the whole lower-cased name (`substring(-1)` starts at 0).
   */
  function Extension(filename: string): (ext: string)
    ensures |ext| <= |filename|
    ensures '.' in filename ==>
      (|ext| >= 1 && ext[0] == '.' && ext[1..] == Lower(filename[LastIndexOf(filename, '.') + 1..]))
    ensures '.' !in filename ==> ext == Lower(filename)
  {
    var i := LastIndexOf(filename, '.');
    if i < 0 then Lower(filename) else Lower(filename)[i..]
  }

  predicate IsValidExtension(filename: string) {
    Extension(filename) in SupportedExtensions
  }

  /** Every supported extension starts with a dot. */
  lemma SupportedExtensionsDotted()
    ensures forall e :: e in SupportedExtensions ==> |e| >= 2 && e[0] == '.' && '.' !in e[1..]
  {
  }

  /** A name without a dot never passes the extension check, whatever its letters. */
  lemma NoDotNoExtension(filename: string)
    requires '.' !in filename
    ensures !IsValidExtension(filename)
  {
    SupportedExtensionsDotted();
    var ext := Extension(filename);
    assert ext == [] || ext[0] != '.';
  }

  /** The extension of `<stem>.<suffix>` is the lower-cased suffix after the dot, whatever the stem holds. */
  lemma ExtensionOfSuffix(stem: string, suffix: string)
    requires '.' !in suffix
    ensures Extension(stem + "." + suffix) == "." + Lower(suffix)
  {
    var name := stem + "." + suffix;
    LastIndexOfSuffix(stem, '.', suffix);
    LowerSuffix(name, |stem|);
    assert name[|stem|..] == "." + suffix;
    LowerAppend(".", suffix);
  }

  /**
   * Only the suffix after the last dot decides, in any letter case: with
   * `stem` = `a.tar` and `suffix` = `MP3` the name is accepted, with `x.mp3`
   * and `txt` it is not.
   */
  lemma LastSuffixDecides(stem: string, suffix: string)
    requires '.' !in suffix
    ensures IsValidExtension(stem + "." + suffix) <==> "." + Lower(suffix) in SupportedExtensions
  {
    ExtensionOfSuffix(stem, suffix);
  }

  lemma SuffixExamples()
    ensures "." + Lower("MP3") in SupportedExtensions
    ensures "." + Lower("txt") !in SupportedExtensions
  {
    assert Lower("MP3") == "mp3";
    assert "." + "mp3" == SupportedExtensions[0];
    assert Lower("txt") == "txt";
    assert forall e :: e in SupportedExtensions ==> e[1] != 't';
    assert ("." + "txt")[1] == 't';
  }

  // ----------------------------------------------------------- validation

  /** One reason `validateFile` rejects a file. */
  datatype Violation =
    | NoFileSelected
    | TooLarge(size: nat)
    | UnsupportedType(mimeType: string)

  predicate TypeAccepted(file: UploadFile) {
    file.mimeType in SupportedTypes || IsValidExtension(file.name)
  }

  /**
   * The message shown for an unsupported type. The size message embeds
   * `formatFileSize`, which is not part of this model.
   */
  function UnsupportedTypeMessage(mimeType: string): (m: string)
    ensures StartsWith(m, "Unsupported file type: ")
  {
    "Unsupported file type: " + (if mimeType == [] then "unknown" else mimeType)
      + ". Supported formats: " + Join(SupportedExtensions, ", ")
  }

  /** Every reason `validateFile` finds, in the order it checks them. */
  function Violations(file: Option<UploadFile>): (vs: seq<Violation>)
    ensures file.None? <==> NoFileSelected in vs
  {
    if file.None? then [NoFileSelected]
    else
      (if file.value.size > MaxFileSize then [TooLarge(file.value.size)] else [])
      + (if !TypeAccepted(file.value) then [UnsupportedType(file.value.mimeType)] else [])
  }

  /**
   * The line shown for a violation; `formatSize` stands for `formatFileSize`,
   * whose floating-point rounding is not part of this model.
   */
  function ViolationMessage(v: Violation, formatSize: nat -> string): (m: string)
    ensures v.NoFileSelected? ==> m == "No file selected"
    ensures v.TooLarge? ==> StartsWith(m, "File size (" + formatSize(v.size) + ")")
    ensures v.UnsupportedType? ==> m == UnsupportedTypeMessage(v.mimeType)
  {
    match v
    case NoFileSelected => "No file selected"
    case TooLarge(size) =>
      "File size (" + formatSize(size) + ") exceeds maximum limit of " + formatSize(MaxFileSize)
    case UnsupportedType(mimeType) => UnsupportedTypeMessage(mimeType)
  }

  class AudioHandler {
    /** The object URLs currently tracked for cleanup. */
    var objectUrls: set<string>
    /** Every URL passed to `URL.revokeObjectURL`, in order. */
    var revoked: seq<string>

    function State(): UrlState
      reads this
    {
      UrlState(objectUrls, revoked)
    }

    constructor ()
      ensures State() == UrlState({}, [])
    {
      objectUrls := {};
      revoked := [];
    }

    /**
     * `validateFile(file)`: no file is a single violation; otherwise the size
     * and the type are both checked and every violation is reported.
     */
    method ValidateFile(file: Option<UploadFile>) returns (isValid: bool, errors: seq<Violation>)
      ensures isValid <==> errors == []
      ensures errors == Violations(file)
      ensures file.None? ==> errors == [NoFileSelected]
      ensures file.Some? ==>
        NoFileSelected !in errors && |errors| <= 2 &&
        (TooLarge(file.value.size) in errors <==> file.value.size > MaxFileSize) &&
        (UnsupportedType(file.value.mimeType) in errors <==> !TypeAccepted(file.value)) &&
        (forall v :: v in errors ==> v == TooLarge(file.value.size) || v == UnsupportedType(file.value.mimeType)) &&
        (|errors| == 2 ==> errors[0].TooLarge?)
    {
      errors := [];
      if file.None? {
        errors := errors + [NoFileSelected];
        return false, errors;
      }
      var f := file.value;
      if f.size > MaxFileSize {
        errors := errors + [TooLarge(f.size)];
      }
      var isValidType := f.mimeType in SupportedTypes || IsValidExtension(f.name);
      if !isValidType {
        errors := errors + [UnsupportedType(f.mimeType)];
      }
      isValid := |errors| == 0;
    }

    /**
     * `createAudioPreview(file)` with `URL.createObjectURL` giving `url` and
     * the media element settling to `outcome`.
     */
    method CreateAudioPreview(file: Option<UploadFile>, url: string, outcome: LoadOutcome)
      returns (r: Result<Preview, string>)
      modifies this
      ensures (State(), r) == PreviewSpec(old(State()), file, url, outcome)
    {
      if file.None? {
        return Err("No file provided");
      }
      objectUrls := objectUrls + {url};
      match outcome {
        case Loaded(duration) =>
          r := Ok(Preview(url, duration));
        case MediaError =>
          revoked := revoked + [url];
          objectUrls := objectUrls - {url};
          assert objectUrls == old(objectUrls) - {url};
          r := Err("Failed to load audio file: Unknown error");
        case TimedOut =>
          revoked := revoked + [url];
          objectUrls := objectUrls - {url};
          assert objectUrls == old(objectUrls) - {url};
          r := Err("Failed to load audio file: Audio loading timeout");
      }
    }

    /** `cleanup()`: revoke every tracked URL and forget them all. */
    method Cleanup()
      modifies this
      ensures CleanedUp(old(State()), State())
    {
      var pending := objectUrls;
      ghost var done: seq<string> := [];
      while pending != {}
        invariant pending <= objectUrls
        invariant revoked == old(revoked) + done
        invariant objectUrls == old(objectUrls)
        invariant forall u :: u in done <==> u in old(objectUrls) && u !in pending
        invariant |done| + |pending| == |old(objectUrls)|
        decreases |pending|
      {
        var u :| u in pending;
        revoked := revoked + [u];
        done := done + [u];
        pending := pending - {u};
      }
      objectUrls := {};
    }
  }

  /** How the preview's media element settles. */
  datatype LoadOutcome = Loaded(duration: nat) | MediaError | TimedOut

  datatype Preview = Preview(url: string, duration: nat)

  /** The tracked and the revoked object URLs. */
  datatype UrlState = UrlState(objectUrls: set<string>, revoked: seq<string>)

  function PreviewSpec(s: UrlState, file: Option<UploadFile>, url: string, outcome: LoadOutcome): (UrlState, Result<Preview, string>)
  {
    if file.None? then (s, Err("No file provided"))
    else match outcome
      case Loaded(duration) => (s.(objectUrls := s.objectUrls + {url}), Ok(Preview(url, duration)))
      case MediaError =>
        (UrlState(s.objectUrls - {url}, s.revoked + [url]), Err("Failed to load audio file: Unknown error"))
      case TimedOut =>
        (UrlState(s.objectUrls - {url}, s.revoked + [url]), Err("Failed to load audio file: Audio loading timeout"))
  }

  /** The new state of `cleanup()`: nothing tracked, each tracked URL revoked once. */
  ghost predicate CleanedUp(s: UrlState, s': UrlState) {
    s'.objectUrls == {} && |s'.revoked| == |s.revoked| + |s.objectUrls| &&
    s'.revoked[..|s.revoked|] == s.revoked &&
    (forall u :: u in s'.revoked[|s.revoked|..] <==> u in s.objectUrls)
  }

  /** No URL is both tracked and already revoked. */
  ghost predicate Valid(s: UrlState) {
    forall u :: u in s.objectUrls ==> u !in s.revoked
  }

  /** A preview on a fresh URL keeps the tracked URLs unrevoked; a loaded one is tracked. */
  lemma PreviewKeepsValid(s: UrlState, file: Option<UploadFile>, url: string, outcome: LoadOutcome)
    requires Valid(s) && url !in s.revoked
    ensures Valid(PreviewSpec(s, file, url, outcome).0)
    ensures file.Some? && outcome.Loaded? ==> url in PreviewSpec(s, file, url, outcome).0.objectUrls
    ensures !(file.Some? && outcome.Loaded?) && url !in s.objectUrls ==>
      PreviewSpec(s, file, url, outcome).0.objectUrls == s.objectUrls
  {
  }

  /** After `cleanup()` nothing is tracked and every URL that was tracked has been revoked. */
  lemma CleanupRevokesAll(s: UrlState, s': UrlState)
    requires CleanedUp(s, s')
    ensures s'.objectUrls == {} && Valid(s')
    ensures forall u :: u in s.objectUrls ==> u in s'.revoked
  {
    forall u | u in s.objectUrls
      ensures u in s'.revoked
    {
      assert u in s'.revoked[|s.revoked|..];
    }
  }

  // ------------------------------------------------------------ duration

  /** What `formatDuration` may be given: the non-finite cases and whole seconds. */
  datatype Seconds = NotANumber | Infinite | Whole(n: nat)

  /** `n.toString().padStart(2, '0')` for `n < 60`. */
  function Pad2(n: nat): (s: string)
    requires n < 60
    ensures |s| == 2 && AllDigits(s) && ParseNat(s) == n
  {
    if n < 10 then
      assert ParseNat(['0']) == 0;
      ['0', DigitChar(n)]
    else
      ParseNatToString(n);
      NatToString(n)
  }

  /** `formatDuration(seconds)`: `m:ss`, or `0:00` when the input is not finite. */
  function FormatDuration(seconds: Seconds): (s: string)
    ensures seconds.Whole? ==> |s| >= 4 && s[|s| - 3] == ':'
  {
    match seconds
    case Whole(n) => NatToString(n / 60) + ":" + Pad2(n % 60)
    case _ => "0:00"
  }

  /** Reads back `m:ss` as a number of seconds. */
  function ParseDuration(s: string): Option<nat> {
    if |s| >= 4 && s[|s| - 3] == ':' && AllDigits(s[..|s| - 3]) && AllDigits(s[|s| - 2..])
    then Some(ParseNat(s[..|s| - 3]) * 60 + ParseNat(s[|s| - 2..]))
    else None
  }

  /** Formatting whole seconds loses nothing: the minutes and the padded seconds give the number back. */
  lemma {:induction false} FormatDurationRoundTrip(n: nat)
    ensures ParseDuration(FormatDuration(Whole(n))) == Some(n)
    ensures var s := FormatDuration(Whole(n)); ParseNat(s[|s| - 2..]) < 60
  {
    var m := NatToString(n / 60);
    var p := Pad2(n % 60);
    var s := m + ":" + p;
    assert s[..|s| - 3] == m;
    assert s[|s| - 2..] == p;
    ParseNatToString(n / 60);
  }

  /** Non-finite input renders as `0:00`, the rendering of zero seconds. */
  lemma NonFiniteIsZero()
    ensures FormatDuration(NotANumber) == FormatDuration(Infinite) == FormatDuration(Whole(0))
  {
    assert Pad2(0) == "00";
  }
}
