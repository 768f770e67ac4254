/** The multipart uploads of the copies service: the name each file is sent
    under (the last '/'-separated segment of its URI, or a fallback), the
    content type inferred from that name, the blob type of a scan, and the
    parts of the page-to-PDF and side-combining requests. */
module UploadNames {
  import opened JsValues

  /** `uri.split('/').pop()`: the text after the last '/', or all of `uri`
      when it has none. */
  function LastSegment(uri: string): (r: string)
    ensures '/' !in r
    ensures |r| <= |uri| && r == uri[|uri| - |r|..]
    ensures |r| < |uri| ==> uri[|uri| - |r| - 1] == '/'
  {
    if uri == [] then []
    else if uri[|uri| - 1] == '/' then []
    else LastSegment(uri[..|uri| - 1]) + [uri[|uri| - 1]]
  }

  /** The three properties above pin the segment down: any suffix without a
      '/' that is the whole text or follows a '/' is the last segment. */
  lemma LastSegmentUnique(uri: string, b: string)
    requires '/' !in b
    requires |b| <= |uri| && b == uri[|uri| - |b|..]
    requires |b| < |uri| ==> uri[|uri| - |b| - 1] == '/'
    ensures LastSegment(uri) == b
  {
  }

  /** A file stored under a directory is sent under its own name. */
  lemma LastSegmentOfPath(dir: string, name: string)
    requires '/' !in name
    ensures LastSegment(dir + "/" + name) == name
    ensures LastSegment(name) == name
  {
    var uri := dir + "/" + name;
    assert uri[|uri| - |name|..] == name;
    assert uri[|uri| - |name| - 1] == '/';
    LastSegmentUnique(uri, name);
    assert name[|name| - |name|..] == name;
    LastSegmentUnique(name, name);
  }

  /** `uri.split('/').pop() || fallback`: an empty last segment (an empty
      URI or one ending in '/') gives the fallback. */
  function FileNameOr(uri: string, fallback: string): (r: string)
    ensures LastSegment(uri) != [] ==> r == LastSegment(uri)
    ensures LastSegment(uri) == [] ==> r == fallback
    ensures fallback != [] && '/' !in fallback ==> r != [] && '/' !in r
  {
    var segment := LastSegment(uri);
    if segment != [] then segment else fallback
  }

  /** `endsWith`: case-sensitive, as in JavaScript. */
  predicate HasSuffix(s: string, suffix: string)
  {
    |suffix| <= |s| && s[|s| - |suffix|..] == suffix
  }

  const PdfType: string := "application/pdf"
  const JpegType: string := "image/jpeg"
  const PngType: string := "image/png"

  /** The content type `printCopies` infers from the file name, testing
      '.pdf', then '.jpg' or '.jpeg', then '.png'; anything else is sent as
      a PDF. */
  function MimeType(fileName: string): (r: string)
    ensures r == PdfType || r == JpegType || r == PngType
    ensures r == JpegType <==>
      !HasSuffix(fileName, ".pdf") && (HasSuffix(fileName, ".jpg") || HasSuffix(fileName, ".jpeg"))
    ensures r == PngType <==>
      !HasSuffix(fileName, ".pdf") && !HasSuffix(fileName, ".jpg") && !HasSuffix(fileName, ".jpeg") &&
      HasSuffix(fileName, ".png")
  {
    if HasSuffix(fileName, ".pdf") then PdfType
    else if HasSuffix(fileName, ".jpg") || HasSuffix(fileName, ".jpeg") then JpegType
    else if HasSuffix(fileName, ".png") then PngType
    else PdfType
  }

  /** The suffix test is case-sensitive: an upper-case '.JPG' photo is
      sent as a PDF. */
  lemma UpperCaseSuffixIsSentAsPdf(stem: string)
    ensures MimeType(stem + ".JPG") == PdfType
  {
    var s := stem + ".JPG";
    assert s[|s| - 4..] == ".JPG";
    assert !HasSuffix(s, ".pdf") && !HasSuffix(s, ".jpg") && !HasSuffix(s, ".png");
  }

  /** One file of a multipart form. */
  datatype FormPart = FormPart(uri: string, mimeType: string, name: string)

  /** The form `printCopies` sends. */
  datatype PrintForm = PrintForm(file: FormPart, copies: string, colorMode: string, printerName: string)

  const DefaultFileName: string := "file.pdf"

  /** `copies.toString()` for an integer. */
  function IntToString(n: int): (s: string)
    ensures n >= 0 ==> s == NatToString(n)
    ensures n < 0 ==> s == "-" + NatToString(-n)
  {
    if n < 0 then "-" + NatToString(-n) else NatToString(n)
  }

  /** The print form: the file under its last segment (or 'file.pdf'), the
      type inferred from that name, and the count as decimal text. */
  function PrintCopiesForm(fileUri: string, copies: int, colorMode: string, printerName: string): (f: PrintForm)
    ensures f.file.uri == fileUri && f.file.name == FileNameOr(fileUri, DefaultFileName)
    ensures f.file.mimeType == MimeType(f.file.name)
    ensures f.copies == IntToString(copies)
    ensures f.colorMode == colorMode && f.printerName == printerName
  {
    var name := FileNameOr(fileUri, DefaultFileName);
    PrintForm(FormPart(fileUri, MimeType(name), name), IntToString(copies), colorMode, printerName)
  }

  /** `toString` and `parseInt` agree on integers: the text reads back as
      the number. */
  lemma {:induction false} ParseIntOfIntToString(n: int)
    ensures ParseInt(IntToString(n)) == Some(n)
  {
    if n >= 0 {
      ParseIntNatToString(n);
    } else {
      var d := NatToString(-n);
      var s := "-" + d;
      assert TrimStart(s) == s;
      assert s[1..] == d;
      DigitPrefixOfDigits(d);
      DigitsValueOfNatToString(-n);
    }
  }

  /** The print form always names a file, never a path; a URI without a
      usable name is sent as a PDF named 'file.pdf'; and the count text
      reads back as the count. */
  lemma PrintFormIsDecodable(fileUri: string, copies: int, colorMode: string, printerName: string)
    ensures PrintCopiesForm(fileUri, copies, colorMode, printerName).file.name != []
    ensures '/' !in PrintCopiesForm(fileUri, copies, colorMode, printerName).file.name
    ensures LastSegment(fileUri) == [] ==>
      PrintCopiesForm(fileUri, copies, colorMode, printerName).file == FormPart(fileUri, PdfType, DefaultFileName)
    ensures ParseInt(PrintCopiesForm(fileUri, copies, colorMode, printerName).copies) == Some(copies)
  {
    var s := DefaultFileName;
    assert s[|s| - 4..] == ".pdf";
    ParseIntOfIntToString(copies);
  }

  /** The blob type of a scan read back on the web. */
  function ScanBlobType(format: string): (r: string)
    ensures format == "pdf" <==> r == PdfType
    ensures format != "pdf" ==> r == "image/" + format
  {
    if format == "pdf" then PdfType
    else
      assert ("image/" + format)[0] == 'i';
      "image/" + format
  }

  /** The fallback name of the `i`-th image: 'page-i.jpg' or 'side-i.jpg'. */
  function IndexedName(prefix: string, i: nat): (r: string)
    ensures r != [] && HasSuffix(r, ".jpg")
  {
    var r := prefix + NatToString(i) + ".jpg";
    assert r[|r| - 4..] == ".jpg";
    r
  }

  /** Different positions get different fallback names. */
  lemma IndexedNamesDistinct(prefix: string, i: nat, j: nat)
    requires i != j
    ensures IndexedName(prefix, i) != IndexedName(prefix, j)
  {
    var a, b := NatToString(i), NatToString(j);
    if IndexedName(prefix, i) == IndexedName(prefix, j) {
      var s := IndexedName(prefix, i);
      assert |a| == |b|;
      assert a == s[|prefix|..|prefix| + |a|];
      assert b == s[|prefix|..|prefix| + |b|];
      DigitsValueOfNatToString(i);
      DigitsValueOfNatToString(j);
      assert false;
    }
  }

  /** The part for the `i`-th image: always sent as JPEG, under its last
      segment or the indexed fallback. */
  function ImagePart(uri: string, prefix: string, i: nat): (p: FormPart)
    ensures p.uri == uri && p.mimeType == JpegType
    ensures p.name == FileNameOr(uri, IndexedName(prefix, i))
  {
    FormPart(uri, JpegType, FileNameOr(uri, IndexedName(prefix, i)))
  }

  /** Two images without usable names at different positions are never
      sent under the same name. */
  lemma NamelessImagesGetDistinctNames(uris: seq<string>, prefix: string, i: nat, j: nat)
    requires i < |uris| && j < |uris| && i != j
    requires LastSegment(uris[i]) == [] && LastSegment(uris[j]) == []
    ensures ImagePart(uris[i], prefix, i).name != ImagePart(uris[j], prefix, j).name
  {
    IndexedNamesDistinct(prefix, i, j);
  }

  /** The loop shared by `createPdfFromImages` and `combineImages`: one
      part per URI, in order. */
  method ImageParts(uris: seq<string>, prefix: string) returns (parts: seq<FormPart>)
    ensures |parts| == |uris|
    ensures forall i :: 0 <= i < |uris| ==> parts[i] == ImagePart(uris[i], prefix, i)
  {
    parts := [];
    var i := 0;
    while i < |uris|
      invariant 0 <= i <= |uris|
      invariant |parts| == i
      invariant forall k :: 0 <= k < i ==> parts[k] == ImagePart(uris[k], prefix, k)
    {
      parts := parts + [ImagePart(uris[i], prefix, i)];
      i := i + 1;
    }
  }

  /** The images of `createPdfFromImages`, pages named 'page-i.jpg' when
      their URI has no name. */
  method CreatePdfParts(uris: seq<string>) returns (parts: seq<FormPart>)
    ensures |parts| == |uris|
    ensures forall i :: 0 <= i < |uris| ==> parts[i] == ImagePart(uris[i], "page-", i)
  {
    parts := ImageParts(uris, "page-");
  }

  const CombineArityError: string := "Se requieren exactamente 2 imágenes para combinar"

  /** The form `combineImages` sends: the two sides and the layout. */
  datatype CombineForm = CombineForm(images: seq<FormPart>, layout: string)

  /** `combineImages`: exactly two URIs, or the request fails before
      anything is sent; sides are named 'side-i.jpg' when their URI has no
      name. */
  method CombineImagesForm(uris: seq<string>, layout: string) returns (r: Result<CombineForm, string>)
    ensures r.Err? <==> |uris| != 2
    ensures r.Err? ==> r.error == CombineArityError
    ensures r.Ok? ==>
      r.value.layout == layout && |r.value.images| == 2 &&
      r.value.images[0] == ImagePart(uris[0], "side-", 0) &&
      r.value.images[1] == ImagePart(uris[1], "side-", 1)
  {
    if |uris| != 2 {
      return Err(CombineArityError);
    }
    var parts := ImageParts(uris, "side-");
    r := Ok(CombineForm(parts, layout));
  }
}
