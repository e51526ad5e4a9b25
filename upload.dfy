/** POST /api/upload: validates the `file` form field, builds the name the blob is
    stored under, and reports the stored URL together with the file's own details. */
module Upload {
  import opened Common

  /** An uploaded file as the form data carries it. */
  datatype File = File(name: string, size: nat, mime: string)

  /** What `formData.get("file")` yields: nothing, a file, or a plain text field. */
  datatype FormEntry = NoEntry | FileEntry(file: File) | TextEntry(text: string)

  /** The size limit, 20 MiB. */
  const MaxSize: nat := 20 * 1024 * 1024

  /** `{ error }` with a status, or the success body `{ url, filename, size, type }`. */
  datatype UploadReply = UploadError(status: int, error: string)
                       | Uploaded(url: string, filename: string, size: nat, mime: string)

  /** The reply, and the name `put` was called with, if it was called. */
  datatype UploadOutcome = UploadOutcome(reply: UploadReply, stored: Option<string>)

  /** The accepted MIME types: any `image/...` or `video/...`. */
  predicate AllowedType(mime: string) {
    StartsWith(mime, "image/") || StartsWith(mime, "video/")
  }

  /** The decimal digit for `d`. */
  function Digit(d: nat): char
    requires d < 10
  {
    "0123456789"[d]
  }

  predicate IsDigit(c: char) {
    '0' <= c <= '9'
  }

  /** The decimal text of a non-negative integer, as a template literal renders `Date.now()`. */
  function Decimal(n: nat): (s: string)
    ensures |s| > 0
    ensures forall i :: 0 <= i < |s| ==> IsDigit(s[i])
  {
    if n < 10 then [Digit(n)] else Decimal(n / 10) + [Digit(n % 10)]
  }

  /** The number a string of decimal digits denotes. */
  function DecimalValue(s: string): nat
    requires forall i :: 0 <= i < |s| ==> IsDigit(s[i])
  {
    if |s| == 0 then 0
    else
      assert IsDigit(s[|s| - 1]);
      DecimalValue(s[..|s| - 1]) * 10 + ((s[|s| - 1] as int) - ('0' as int))
  }

  /** Reading back the decimal text gives the number: the rendering loses nothing. */
  lemma {:induction false} DecimalRoundTrip(n: nat)
    ensures DecimalValue(Decimal(n)) == n
  {
    var s := Decimal(n);
    if n >= 10 {
      DecimalRoundTrip(n / 10);
      assert s[..|s| - 1] == Decimal(n / 10);
    }
  }

  /** `pest-assessment-${timestamp}-${file.name}`. */
  function StoredName(timestamp: nat, name: string): string {
    "pest-assessment-" + Decimal(timestamp) + "-" + name
  }

  /** The stored name has the fixed prefix and ends with the original name. */
  lemma StoredNameShape(timestamp: nat, name: string)
    ensures StartsWith(StoredName(timestamp, name), "pest-assessment-")
    ensures EndsWith(StoredName(timestamp, name), name)
  {
    var s := StoredName(timestamp, name);
    assert s[..|"pest-assessment-"|] == "pest-assessment-";
    assert s[|s| - |name|..] == name;
  }

  /** How many decimal digits `x` starts with. */
  function LeadingDigits(x: string): nat {
    if |x| > 0 && IsDigit(x[0]) then 1 + LeadingDigits(x[1..]) else 0
  }

  lemma {:induction false} LeadingDigitsOf(d: string, rest: string)
    requires forall i :: 0 <= i < |d| ==> IsDigit(d[i])
    requires |rest| > 0 && !IsDigit(rest[0])
    ensures LeadingDigits(d + rest) == |d|
  {
    if |d| > 0 {
      assert (d + rest)[1..] == d[1..] + rest;
      LeadingDigitsOf(d[1..], rest);
    } else {
      assert d + rest == rest;
    }
  }

  /** Two uploads get the same stored name only when both the timestamp and the
      original name agree: the digits of the timestamp contain no `-`, so the
      first `-` after the prefix separates the two. */
  lemma StoredNameInjective(t1: nat, n1: string, t2: nat, n2: string)
    requires StoredName(t1, n1) == StoredName(t2, n2)
    ensures t1 == t2 && n1 == n2
  {
    var p := "pest-assessment-";
    var d1, d2 := Decimal(t1), Decimal(t2);
    var s := StoredName(t1, n1);
    assert s == p + d1 + "-" + n1;
    assert s == p + d2 + "-" + n2;
    var rest := s[|p|..];
    assert rest == d1 + ("-" + n1) == d2 + ("-" + n2);
    LeadingDigitsOf(d1, "-" + n1);
    LeadingDigitsOf(d2, "-" + n2);
    assert d1 == s[|p|..|p| + |d1|] == d2;
    assert n1 == s[|p| + |d1| + 1..] == n2;
    DecimalRoundTrip(t1);
    DecimalRoundTrip(t2);
  }

  /** The route. `blobUrl` is what `put` returns for the stored name, or `None`
      when it throws; `timestamp` is `Date.now()`. A plain text field is truthy
      unless empty, has no size, and has no type, so `type.startsWith` throws. */
  function UploadRoute(entry: FormEntry, timestamp: nat, blobUrl: Option<string>): (out: UploadOutcome)
    ensures (entry.NoEntry? || entry == TextEntry("")) <==> out == UploadOutcome(UploadError(400, "No file provided"), None)
    ensures entry.FileEntry? && entry.file.size > MaxSize ==>
      out == UploadOutcome(UploadError(400, "File size exceeds 20MB limit"), None)
    ensures entry.FileEntry? && entry.file.size <= MaxSize && !AllowedType(entry.file.mime) ==>
      out == UploadOutcome(UploadError(400, "Only image and video files are allowed"), None)
    ensures out.stored.Some? <==> entry.FileEntry? && entry.file.size <= MaxSize && AllowedType(entry.file.mime)
    ensures out.stored.Some? ==>
      && StartsWith(out.stored.value, "pest-assessment-") && EndsWith(out.stored.value, entry.file.name)
      && out.stored.value == StoredName(timestamp, entry.file.name)
    ensures out.reply.Uploaded? <==> out.stored.Some? && blobUrl.Some?
    ensures out.reply.Uploaded? ==>
      out.reply == Uploaded(blobUrl.value, entry.file.name, entry.file.size, entry.file.mime)
    ensures (out.stored.Some? && blobUrl.None?) || (entry.TextEntry? && entry.text != "") ==>
      out.reply == UploadError(500, "Upload failed")
  {
    match entry
    case NoEntry => UploadOutcome(UploadError(400, "No file provided"), None)
    case TextEntry(text) =>
      if text == "" then UploadOutcome(UploadError(400, "No file provided"), None)
      else UploadOutcome(UploadError(500, "Upload failed"), None)
    case FileEntry(file) =>
      if file.size > MaxSize then UploadOutcome(UploadError(400, "File size exceeds 20MB limit"), None)
      else if !AllowedType(file.mime) then UploadOutcome(UploadError(400, "Only image and video files are allowed"), None)
      else
        var filename := StoredName(timestamp, file.name);
        StoredNameShape(timestamp, file.name);
        match blobUrl
        case None => UploadOutcome(UploadError(500, "Upload failed"), Some(filename))
        case Some(url) => UploadOutcome(Uploaded(url, file.name, file.size, file.mime), Some(filename))
  }

  /** The limit is inclusive: a file of exactly 20971520 bytes of an allowed type
      is stored, one byte more is refused. */
  lemma SizeBoundary(name: string, mime: string, timestamp: nat, url: string)
    requires AllowedType(mime)
    ensures UploadRoute(FileEntry(File(name, 20971520, mime)), timestamp, Some(url)).reply
            == Uploaded(url, name, 20971520, mime)
    ensures UploadRoute(FileEntry(File(name, 20971521, mime)), timestamp, Some(url)).reply
            == UploadError(400, "File size exceeds 20MB limit")
  {
  }

  /** A PDF is refused by type; an oversize PDF is refused by size, since the size
      is checked first. */
  lemma PdfRejected(name: string, size: nat, timestamp: nat, url: Option<string>)
    ensures size <= MaxSize ==>
      UploadRoute(FileEntry(File(name, size, "application/pdf")), timestamp, url).reply
      == UploadError(400, "Only image and video files are allowed")
    ensures size > MaxSize ==>
      UploadRoute(FileEntry(File(name, size, "application/pdf")), timestamp, url).reply
      == UploadError(400, "File size exceeds 20MB limit")
  {
    assert !StartsWith("application/pdf", "image/") by {
      assert "application/pdf"[0] != "image/"[0];
    }
    assert !StartsWith("application/pdf", "video/") by {
      assert "application/pdf"[0] != "video/"[0];
    }
  }
}
