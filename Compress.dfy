/**
 * The PDF image recompression engine of the backend (`compressPDF`).
 *
 * A loaded document is an object table from indirect references to objects.
 * Every raw image stream that passes the selection rules is handed to one of
 * two jobs: the JPEG job re-encodes a `DCTDecode` payload, the raw job
 * inflates a `FlateDecode` pixel buffer and encodes it as JPEG. A job replaces
 * the object at the same reference only when the new payload beats a size
 * gate; every failure inside a job leaves the object as it was. Afterwards the
 * descriptive metadata is cleared.
 *
 * The image codec (sharp) and the inflater (zlib) are parameters: a `Codecs`
 * value whose functions answer `None` where the library call throws.
 */
module PdfCompress {
  import opened Wrappers

  const JpegQuality := 60
  const MaxDim := 1500
  const MinPixels := 2500

  type Byte = b: int | 0 <= b < 256
  type Bytes = seq<Byte>

  /** An indirect reference `n g R`. */
  datatype Ref = Ref(objectNumber: nat, generation: nat)

  /** The values a dictionary entry can hold (PDF numbers are modelled as integers). */
  datatype Value =
    | Num(n: int)
    | Name(name: string)
    | Str(text: string)
    | Bool(b: bool)
    | RefV(target: Ref)
    | Arr(items: seq<Value>)

  /** A PDF dictionary, keyed by name (without the leading slash). */
  type Dict = map<string, Value>

  /** An indirect object. Only `RawStream`, a stream as parsed from the file, is ever recompressed. */
  datatype Obj =
    | RawStream(dict: Dict, contents: Bytes)
    | OtherStream(dict: Dict)
    | DictObj(entries: Dict)
    | Direct(value: Value)

  // ---------------------------------------------------------------------------
  // The codec capabilities

  /** What sharp is asked to decode: a self-describing container, or raw 8-bit samples. */
  datatype Source =
    | Container(data: Bytes)
    | RawPixels(pixels: Bytes, width: int, height: int, channels: int)

  /** `resize(width, height, { fit: 'inside', withoutEnlargement })` */
  datatype Resize = Resize(width: int, height: int, fitInside: bool, withoutEnlargement: bool)

  /** One sharp pipeline: decode, optionally resize, encode as JPEG. */
  datatype EncodeRequest = EncodeRequest(source: Source, resize: Option<Resize>, quality: int, mozjpeg: bool)

  /** `sharp(out).metadata()`: either dimension may be missing. */
  datatype Meta = Meta(width: Option<int>, height: Option<int>)

  datatype Codecs = Codecs(
    encode: EncodeRequest -> Option<Bytes>,
    metadata: Bytes -> Option<Meta>,
    inflate: Bytes -> Option<Bytes>)

  /** Assumption about the codec, used only where stated: a fit-inside resize never reports a larger size than its box. */
  ghost predicate HonoursFitInside(c: Codecs) {
    forall req: EncodeRequest, out: Bytes, m: Meta ::
      c.encode(req) == Some(out) && c.metadata(out) == Some(m) && req.resize.Some? ==>
        (m.width.Some? ==> m.width.value <= req.resize.value.width) &&
        (m.height.Some? ==> m.height.value <= req.resize.value.height)
  }

  // ---------------------------------------------------------------------------
  // Dictionary access

  /** `dict.get(PDFName.of(key))` */
  function Get(d: Dict, key: string): Option<Value> {
    if key in d then Some(d[key]) else None
  }

  /** `pdfNum`: the entry's number when it is a number, otherwise `undefined`. */
  function PdfNum(d: Dict, key: string): Option<int> {
    match Get(d, key)
    case Some(Num(n)) => Some(n)
    case _ => None
  }

  predicate HasName(d: Dict, key: string, name: string) {
    key in d && d[key] == Name(name)
  }

  predicate HasMask(d: Dict) {
    "SMask" in d || "Mask" in d
  }

  /** `needsResize` */
  predicate NeedsResize(w: int, h: int) {
    w > MaxDim || h > MaxDim
  }

  /** The resize step a job adds to its pipeline. */
  function ResizeFor(w: int, h: int): Option<Resize> {
    if NeedsResize(w, h) then Some(Resize(MaxDim, MaxDim, true, true)) else None
  }

  lemma ResizeRequestedIff(w: int, h: int)
    ensures ResizeFor(w, h).Some? <==> (w > 1500 || h > 1500)
    ensures ResizeFor(w, h).Some? ==> ResizeFor(w, h).value == Resize(1500, 1500, true, true)
  {
  }

  // ---------------------------------------------------------------------------
  // Selection

  datatype Job = JpegJob(w: int, h: int) | RawJob(w: int, h: int)

  /** The selection rules every dispatched object satisfies, whatever its filter. */
  predicate Candidate(obj: Obj, w: int, h: int) {
    && obj.RawStream?
    && HasName(obj.dict, "Subtype", "Image")
    && "Width" in obj.dict && obj.dict["Width"] == Num(w)
    && "Height" in obj.dict && obj.dict["Height"] == Num(h)
    && w != 0 && h != 0 && w * h >= MinPixels
    && !HasMask(obj.dict)
  }

  /** The body of the `forEach` over the indirect objects: which job, if any, the object gets. */
  function Classify(obj: Obj): (job: Option<Job>)
    ensures job.Some? ==> Candidate(obj, job.value.w, job.value.h)
    ensures job.Some? && job.value.JpegJob? ==> HasName(obj.dict, "Filter", "DCTDecode")
    ensures job.Some? && job.value.RawJob? ==>
      HasName(obj.dict, "Filter", "FlateDecode") && "DecodeParms" !in obj.dict
  {
    if !obj.RawStream? then None
    else
      var dict := obj.dict;
      if Get(dict, "Subtype") != Some(Name("Image")) then None
      else
        var w := PdfNum(dict, "Width");
        var h := PdfNum(dict, "Height");
        if w.None? || h.None? || w.value == 0 || h.value == 0 || w.value * h.value < MinPixels then None
        else if Get(dict, "SMask").Some? || Get(dict, "Mask").Some? then None
        else
          var filter := Get(dict, "Filter");
          if filter == Some(Name("DCTDecode")) then Some(JpegJob(w.value, h.value))
          else if filter == Some(Name("FlateDecode")) && Get(dict, "DecodeParms").None? then
            Some(RawJob(w.value, h.value))
          else None
  }

  /** The converse of Classify's contract: every candidate with an accepted filter is dispatched, to the job its filter names. */
  lemma ClassifyComplete(obj: Obj, w: int, h: int)
    requires Candidate(obj, w, h)
    requires HasName(obj.dict, "Filter", "DCTDecode")
          || (HasName(obj.dict, "Filter", "FlateDecode") && "DecodeParms" !in obj.dict)
    ensures Classify(obj) == Some(if HasName(obj.dict, "Filter", "DCTDecode") then JpegJob(w, h) else RawJob(w, h))
  {
  }

  /** Any other filter, and Flate with decode parameters, is never dispatched. */
  lemma OtherFiltersIgnored(obj: Obj)
    requires obj.RawStream?
    requires !HasName(obj.dict, "Filter", "DCTDecode")
    requires !HasName(obj.dict, "Filter", "FlateDecode") || "DecodeParms" in obj.dict
    ensures Classify(obj) == None
  {
  }

  // ---------------------------------------------------------------------------
  // The jobs, as functions of the object they work on

  datatype SkipReason =
    | UnsupportedColorSpace
    | UnsupportedBitDepth
    | InflateFailed
    | LengthMismatch
    | EncodeFailed
    | MetadataFailed

  /** What happened to one indirect object. */
  datatype Outcome =
    | NotDispatched
    | Skipped(reason: SkipReason)
    | GateRejected
    | Replaced(obj: Obj)

  /** The JPEG gate: the new payload is below 92% of the original. */
  predicate JpegGate(outLen: nat, origLen: nat) {
    100 * outLen < 92 * origLen
  }

  /** The raw gate: the new payload is below 85% of the stored (deflated) payload. */
  predicate RawGate(outLen: nat, storedLen: nat) {
    100 * outLen < 85 * storedLen
  }

  /** `replaceImage`'s dictionary: `Width`, `Height` and `Length` rewritten, every other entry kept. */
  function ImageDict(d: Dict, data: Bytes, w: int, h: int): (r: Dict)
    ensures r.Keys == d.Keys + {"Width", "Height", "Length"}
    ensures r["Width"] == Num(w) && r["Height"] == Num(h) && r["Length"] == Num(|data|)
    ensures forall k :: k in d && k != "Width" && k != "Height" && k != "Length" ==> r[k] == d[k]
  {
    d["Width" := Num(w)]["Height" := Num(h)]["Length" := Num(|data|)]
  }

  /** The raw job's extra rewrite: the stream becomes an 8-bit RGB JPEG without decode parameters. */
  function JpegDict(d: Dict): (r: Dict)
    ensures r.Keys == d.Keys + {"Filter", "ColorSpace", "BitsPerComponent"} - {"DecodeParms"}
    ensures r["Filter"] == Name("DCTDecode") && r["ColorSpace"] == Name("DeviceRGB")
    ensures r["BitsPerComponent"] == Num(8)
    ensures forall k :: k in d && k !in {"Filter", "ColorSpace", "BitsPerComponent", "DecodeParms"} ==> r[k] == d[k]
  {
    var set3 := d["Filter" := Name("DCTDecode")]["ColorSpace" := Name("DeviceRGB")]["BitsPerComponent" := Num(8)];
    if "DecodeParms" in set3 then set3 - {"DecodeParms"} else set3
  }

  /** `squashJPEG` */
  function JpegOutcome(c: Codecs, dict: Dict, contents: Bytes, w: int, h: int): Outcome {
    match c.encode(EncodeRequest(Container(contents), ResizeFor(w, h), JpegQuality, true))
    case None => Skipped(EncodeFailed)
    case Some(out) =>
      if !JpegGate(|out|, |contents|) then GateRejected
      else
        match c.metadata(out)
        case None => Skipped(MetadataFailed)
        case Some(meta) =>
          Replaced(RawStream(ImageDict(dict, out, meta.width.GetOr(w), meta.height.GetOr(h)), out))
  }

  /** The channel count of a supported colour space, 0 for an unsupported one. */
  function Channels(dict: Dict): int {
    if Get(dict, "ColorSpace") == Some(Name("DeviceRGB")) then 3
    else if Get(dict, "ColorSpace") == Some(Name("DeviceGray")) then 1
    else 0
  }

  /** `squashRaw` */
  function RawOutcome(c: Codecs, dict: Dict, contents: Bytes, w: int, h: int): Outcome {
    var channels := Channels(dict);
    if channels == 0 then Skipped(UnsupportedColorSpace)
    else if PdfNum(dict, "BitsPerComponent") != Some(8) then Skipped(UnsupportedBitDepth)
    else
      match c.inflate(contents)
      case None => Skipped(InflateFailed)
      case Some(pixels) =>
        if |pixels| != w * h * channels then Skipped(LengthMismatch)
        else
          match c.encode(EncodeRequest(RawPixels(pixels, w, h, channels), ResizeFor(w, h), JpegQuality, true))
          case None => Skipped(EncodeFailed)
          case Some(out) =>
            if !RawGate(|out|, |contents|) then GateRejected
            else
              match c.metadata(out)
              case None => Skipped(MetadataFailed)
              case Some(meta) =>
                Replaced(RawStream(ImageDict(JpegDict(dict), out, meta.width.GetOr(w), meta.height.GetOr(h)), out))
  }

  /** The whole treatment of one indirect object: selection, then its job. */
  function ObjectOutcome(obj: Obj, c: Codecs): Outcome {
    match Classify(obj)
    case None => NotDispatched
    case Some(JpegJob(w, h)) => JpegOutcome(c, obj.dict, obj.contents, w, h)
    case Some(RawJob(w, h)) => RawOutcome(c, obj.dict, obj.contents, w, h)
  }

  /** The object found at its reference once every job has settled. */
  function Processed(obj: Obj, c: Codecs): Obj {
    match ObjectOutcome(obj, c)
    case Replaced(o) => o
    case _ => obj
  }

  /** The object table once every job has settled. */
  function CompressedTable(t: map<Ref, Obj>, c: Codecs): map<Ref, Obj> {
    map r | r in t :: Processed(t[r], c)
  }

  // ---------------------------------------------------------------------------
  // What the engine promises about each object

  /** Only dispatched candidates are replaced, and a replacement is a raw stream holding the new payload. */
  lemma ReplacedOnlyCandidates(obj: Obj, c: Codecs)
    requires ObjectOutcome(obj, c).Replaced?
    ensures Classify(obj).Some?
    ensures Candidate(obj, Classify(obj).value.w, Classify(obj).value.h)
    ensures ObjectOutcome(obj, c).obj.RawStream?
  {
  }

  /** Every replacement satisfies its gate against the original payload length. */
  lemma ReplacementMeetsGate(obj: Obj, c: Codecs)
    requires ObjectOutcome(obj, c).Replaced?
    ensures obj.RawStream? && Processed(obj, c).RawStream?
    ensures Classify(obj).value.JpegJob? ==> JpegGate(|Processed(obj, c).contents|, |obj.contents|)
    ensures Classify(obj).value.RawJob? ==> RawGate(|Processed(obj, c).contents|, |obj.contents|)
    ensures 100 * |Processed(obj, c).contents| < 92 * |obj.contents|
  {
  }

  /** A failed gate leaves the object exactly as it was. */
  lemma GateFailureLeavesObject(obj: Obj, c: Codecs)
    requires ObjectOutcome(obj, c) == GateRejected || ObjectOutcome(obj, c).Skipped?
    ensures Processed(obj, c) == obj
  {
  }

  /** An image with a soft mask or a mask is never replaced, however compressible. */
  lemma MaskedNeverReplaced(obj: Obj, c: Codecs)
    requires obj.RawStream? && HasMask(obj.dict)
    ensures ObjectOutcome(obj, c) == NotDispatched && Processed(obj, c) == obj
  {
  }

  /** An image whose declared area is below 2500 pixels is never replaced. */
  lemma SmallNeverReplaced(obj: Obj, c: Codecs, w: int, h: int)
    requires obj.RawStream?
    requires "Width" in obj.dict && obj.dict["Width"] == Num(w)
    requires "Height" in obj.dict && obj.dict["Height"] == Num(h)
    requires w * h < 2500
    ensures ObjectOutcome(obj, c) == NotDispatched && Processed(obj, c) == obj
  {
  }

  /** A JPEG job's replacement is `replaceImage`'s rewrite of the original dictionary around the encoder's output. */
  lemma JpegReplacedShape(c: Codecs, dict: Dict, contents: Bytes, w: int, h: int) returns (out: Bytes, w': int, h': int)
    requires JpegOutcome(c, dict, contents, w, h).Replaced?
    ensures JpegOutcome(c, dict, contents, w, h).obj == RawStream(ImageDict(dict, out, w', h'), out)
  {
    out := c.encode(EncodeRequest(Container(contents), ResizeFor(w, h), JpegQuality, true)).value;
    var meta := c.metadata(out).value;
    w', h' := meta.width.GetOr(w), meta.height.GetOr(h);
  }

  /** A raw job's replacement is `replaceImage`'s rewrite of `JpegDict` of the original dictionary. */
  lemma RawReplacedShape(c: Codecs, dict: Dict, contents: Bytes, w: int, h: int) returns (out: Bytes, w': int, h': int)
    requires RawOutcome(c, dict, contents, w, h).Replaced?
    ensures RawOutcome(c, dict, contents, w, h).obj == RawStream(ImageDict(JpegDict(dict), out, w', h'), out)
  {
    var pixels := c.inflate(contents).value;
    out := c.encode(EncodeRequest(RawPixels(pixels, w, h, Channels(dict)), ResizeFor(w, h), JpegQuality, true)).value;
    var meta := c.metadata(out).value;
    w', h' := meta.width.GetOr(w), meta.height.GetOr(h);
  }

  /**
   * A raw job replaces only after its checks pass: an RGB or grey colour
   * space, eight bits per component, a successful inflate, and exactly
   * `w * h * channels` inflated bytes.
   */
  lemma RawReplacedValidated(c: Codecs, dict: Dict, contents: Bytes, w: int, h: int)
    requires RawOutcome(c, dict, contents, w, h).Replaced?
    ensures HasName(dict, "ColorSpace", "DeviceRGB") || HasName(dict, "ColorSpace", "DeviceGray")
    ensures PdfNum(dict, "BitsPerComponent") == Some(8)
    ensures c.inflate(contents).Some?
    ensures |c.inflate(contents).value| == w * h * (if HasName(dict, "ColorSpace", "DeviceRGB") then 3 else 1)
  {
  }

  /** The raw job's checks, for every object the raw job replaced. */
  lemma RawReplacementValidated(obj: Obj, c: Codecs)
    requires ObjectOutcome(obj, c).Replaced? && Classify(obj).value.RawJob?
    ensures var d, job := obj.dict, Classify(obj).value;
      && (HasName(d, "ColorSpace", "DeviceRGB") || HasName(d, "ColorSpace", "DeviceGray"))
      && PdfNum(d, "BitsPerComponent") == Some(8)
      && c.inflate(obj.contents).Some?
      && |c.inflate(obj.contents).value| == job.w * job.h * (if HasName(d, "ColorSpace", "DeviceRGB") then 3 else 1)
  {
    var job := Classify(obj).value;
    assert ObjectOutcome(obj, c) == RawOutcome(c, obj.dict, obj.contents, job.w, job.h);
    RawReplacedValidated(c, obj.dict, obj.contents, job.w, job.h);
  }

  /** A replacement is `replaceImage`'s rewrite of the dictionary the job prepared, holding the encoder's output. */
  lemma ReplacedShape(obj: Obj, c: Codecs) returns (base: Dict, out: Bytes, w: int, h: int)
    requires ObjectOutcome(obj, c).Replaced?
    ensures Classify(obj).value.JpegJob? ==> base == obj.dict
    ensures Classify(obj).value.RawJob? ==> base == JpegDict(obj.dict)
    ensures Processed(obj, c) == RawStream(ImageDict(base, out, w, h), out)
  {
    var job := Classify(obj).value;
    if job.JpegJob? {
      base := obj.dict;
      assert ObjectOutcome(obj, c) == JpegOutcome(c, obj.dict, obj.contents, job.w, job.h);
      out, w, h := JpegReplacedShape(c, obj.dict, obj.contents, job.w, job.h);
    } else {
      base := JpegDict(obj.dict);
      assert ObjectOutcome(obj, c) == RawOutcome(c, obj.dict, obj.contents, job.w, job.h);
      out, w, h := RawReplacedShape(c, obj.dict, obj.contents, job.w, job.h);
    }
  }

  /** On the JPEG path only `Width`, `Height` and `Length` are written; `Length` is the new payload's. */
  lemma JpegReplacementDictionary(obj: Obj, c: Codecs)
    requires ObjectOutcome(obj, c).Replaced? && Classify(obj).value.JpegJob?
    ensures var d, d' := obj.dict, Processed(obj, c).dict;
      && d'.Keys == d.Keys + {"Width", "Height", "Length"}
      && d'["Length"] == Num(|Processed(obj, c).contents|)
      && forall k :: k in d && k !in {"Width", "Height", "Length"} ==> d'[k] == d[k]
  {
    var base, out, w, h := ReplacedShape(obj, c);
  }

  /**
   * On the raw path the stream also becomes an 8-bit RGB JPEG: `Filter`,
   * `ColorSpace` and `BitsPerComponent` are written, and `DecodeParms`, which
   * selection already excluded, stays absent.
   */
  lemma RawReplacementDictionary(obj: Obj, c: Codecs)
    requires ObjectOutcome(obj, c).Replaced? && Classify(obj).value.RawJob?
    ensures var d, d' := obj.dict, Processed(obj, c).dict;
      && d'.Keys == d.Keys + {"Width", "Height", "Length", "Filter", "ColorSpace", "BitsPerComponent"}
      && "DecodeParms" !in d'
      && d'["Length"] == Num(|Processed(obj, c).contents|)
      && d'["Filter"] == Name("DCTDecode") && d'["ColorSpace"] == Name("DeviceRGB")
      && d'["BitsPerComponent"] == Num(8)
      && forall k :: k in d && k !in {"Width", "Height", "Length", "Filter", "ColorSpace", "BitsPerComponent"} ==> d'[k] == d[k]
  {
    var base, out, w, h := ReplacedShape(obj, c);
    var d := obj.dict;
    assert "DecodeParms" !in d;
    assert base.Keys == d.Keys + {"Filter", "ColorSpace", "BitsPerComponent"};
  }

  /** The stored size is the encoder's reported size, falling back to the declared one per missing dimension. */
  lemma ReplacementDimensions(obj: Obj, c: Codecs)
    requires ObjectOutcome(obj, c).Replaced?
    ensures var job, out := Classify(obj).value, Processed(obj, c).contents;
      && c.metadata(out).Some?
      && Processed(obj, c).dict["Width"] == Num(c.metadata(out).value.width.GetOr(job.w))
      && Processed(obj, c).dict["Height"] == Num(c.metadata(out).value.height.GetOr(job.h))
  {
  }

  /** Dimension cap: an image declared larger than 1500 on an edge, once replaced, reports no edge above 1500. */
  lemma ReplacementWithinMaxDim(obj: Obj, c: Codecs)
    requires HonoursFitInside(c)
    requires ObjectOutcome(obj, c).Replaced?
    requires NeedsResize(Classify(obj).value.w, Classify(obj).value.h)
    ensures var m := c.metadata(Processed(obj, c).contents).value;
      (m.width.Some? ==> m.width.value <= 1500) && (m.height.Some? ==> m.height.value <= 1500)
  {
    var job := Classify(obj).value;
    var out := Processed(obj, c).contents;
    var m := c.metadata(out).value;
    var src := if job.JpegJob? then Container(obj.contents)
               else RawPixels(c.inflate(obj.contents).value, job.w, job.h, Channels(obj.dict));
    var req := EncodeRequest(src, ResizeFor(job.w, job.h), JpegQuality, true);
    assert c.encode(req) == Some(out) && c.metadata(out) == Some(m);
  }

  // ---------------------------------------------------------------------------
  // What the engine promises about the whole table

  /** The reference set is unchanged, and an object changes only when its job replaced it. */
  lemma TableChangesOnlyReplaced(t: map<Ref, Obj>, c: Codecs, r: Ref)
    requires r in t
    ensures CompressedTable(t, c).Keys == t.Keys
    ensures CompressedTable(t, c)[r] != t[r] ==> ObjectOutcome(t[r], c).Replaced? && Classify(t[r]).Some?
  {
  }

  /** A document with no dispatchable image comes through with its object table untouched. */
  lemma NoCandidatesNoChange(t: map<Ref, Obj>, c: Codecs)
    requires forall r :: r in t ==> Classify(t[r]).None?
    ensures CompressedTable(t, c) == t
  {
  }

  // ---------------------------------------------------------------------------
  // The document and the imperative engine

  /** The Info dictionary entries the finaliser writes; None is an absent entry. */
  datatype Info = Info(
    title: Option<string>,
    author: Option<string>,
    subject: Option<string>,
    keywords: Option<seq<string>>,
    producer: Option<string>,
    creator: Option<string>)

  predicate MetadataCleared(i: Info) {
    && i.title == Some("") && i.author == Some("") && i.subject == Some("")
    && i.keywords == Some([]) && i.producer == Some("") && i.creator == Some("")
  }

  /** A loaded `PDFDocument`: its context's object table and its metadata. */
  class PdfDocument {
    var objects: map<Ref, Obj>
    var info: Info

    constructor (objects: map<Ref, Obj>, info: Info)
      ensures this.objects == objects && this.info == info
    {
      this.objects := objects;
      this.info := info;
    }

    /** `replaceImage`: rewrite the size entries and assign a new raw stream at the same reference. */
    method ReplaceImage(ref: Ref, dict: Dict, data: Bytes, w: int, h: int)
      requires ref in objects
      modifies this`objects
      ensures objects == old(objects)[ref := RawStream(ImageDict(dict, data, w, h), data)]
    {
      var d := dict;
      d := d["Width" := Num(w)];
      d := d["Height" := Num(h)];
      d := d["Length" := Num(|data|)];
      objects := objects[ref := RawStream(d, data)];
    }

    /** `squashJPEG`: every failure returns early and leaves the table as it was. */
    method SquashJpeg(c: Codecs, ref: Ref, stream: Obj, w: int, h: int) returns (outcome: Outcome)
      requires ref in objects && stream.RawStream?
      modifies this`objects
      ensures outcome == JpegOutcome(c, stream.dict, stream.contents, w, h)
      ensures objects == if outcome.Replaced? then old(objects)[ref := outcome.obj] else old(objects)
    {
      var original := stream.contents;
      var resize: Option<Resize> := None;
      if NeedsResize(w, h) {
        resize := Some(Resize(MaxDim, MaxDim, true, true));
      }
      var out := c.encode(EncodeRequest(Container(original), resize, JpegQuality, true));
      if out.None? {
        return Skipped(EncodeFailed);
      }
      if 100 * |out.value| >= 92 * |original| {
        return GateRejected;
      }
      var meta := c.metadata(out.value);
      if meta.None? {
        return Skipped(MetadataFailed);
      }
      ReplaceImage(ref, stream.dict, out.value, meta.value.width.GetOr(w), meta.value.height.GetOr(h));
      outcome := Replaced(objects[ref]);
    }

    /** `squashRaw`: validate, inflate, encode, gate, then rewrite the dictionary step by step. */
    method SquashRaw(c: Codecs, ref: Ref, stream: Obj, w: int, h: int) returns (outcome: Outcome)
      requires ref in objects && stream.RawStream?
      modifies this`objects
      ensures outcome == RawOutcome(c, stream.dict, stream.contents, w, h)
      ensures objects == if outcome.Replaced? then old(objects)[ref := outcome.obj] else old(objects)
    {
      var dict := stream.dict;
      var channels: int;
      var cs := Get(dict, "ColorSpace");
      if cs == Some(Name("DeviceRGB")) {
        channels := 3;
      } else if cs == Some(Name("DeviceGray")) {
        channels := 1;
      } else {
        return Skipped(UnsupportedColorSpace);
      }
      if PdfNum(dict, "BitsPerComponent") != Some(8) {
        return Skipped(UnsupportedBitDepth);
      }
      var pixels := c.inflate(stream.contents);
      if pixels.None? {
        return Skipped(InflateFailed);
      }
      if |pixels.value| != w * h * channels {
        return Skipped(LengthMismatch);
      }
      var resize: Option<Resize> := None;
      if NeedsResize(w, h) {
        resize := Some(Resize(MaxDim, MaxDim, true, true));
      }
      var out := c.encode(EncodeRequest(RawPixels(pixels.value, w, h, channels), resize, JpegQuality, true));
      if out.None? {
        return Skipped(EncodeFailed);
      }
      if 100 * |out.value| >= 85 * |stream.contents| {
        return GateRejected;
      }
      var meta := c.metadata(out.value);
      if meta.None? {
        return Skipped(MetadataFailed);
      }
      dict := dict["Filter" := Name("DCTDecode")];
      dict := dict["ColorSpace" := Name("DeviceRGB")];
      dict := dict["BitsPerComponent" := Num(8)];
      if Get(dict, "DecodeParms").Some? {
        dict := dict - {"DecodeParms"};
      }
      assert dict == JpegDict(stream.dict);
      ReplaceImage(ref, dict, out.value, meta.value.width.GetOr(w), meta.value.height.GetOr(h));
      outcome := Replaced(objects[ref]);
    }

    /** The entry of the scan for one object: dispatch it to its job, if it has one. */
    method ProcessObject(c: Codecs, r: Ref)
      requires r in objects
      modifies this`objects
      ensures objects == old(objects)[r := Processed(old(objects)[r], c)]
    {
      var obj := objects[r];
      var job := Classify(obj);
      if job.Some? {
        var outcome: Outcome;
        if job.value.JpegJob? {
          outcome := SquashJpeg(c, r, obj, job.value.w, job.value.h);
        } else {
          outcome := SquashRaw(c, r, obj, job.value.w, job.value.h);
        }
        assert outcome == ObjectOutcome(obj, c);
      } else {
        assert objects == old(objects)[r := obj];
      }
    }

    /** The finaliser: clear the descriptive metadata. */
    method ClearMetadata()
      modifies this`info
      ensures MetadataCleared(info)
    {
      info := info.(title := Some(""));
      info := info.(author := Some(""));
      info := info.(subject := Some(""));
      info := info.(keywords := Some([]));
      info := info.(producer := Some(""));
      info := info.(creator := Some(""));
    }

    /**
     * `compressPDF` on a loaded document: one job per dispatched object, all
     * settled before the finaliser runs. The jobs touch distinct references, so
     * they are run one after another, in any order.
     */
    method CompressPdf(c: Codecs)
      modifies this
      ensures objects == CompressedTable(old(objects), c)
      ensures MetadataCleared(info)
    {
      ghost var before := objects;
      var pending := objects.Keys;
      while pending != {}
        invariant pending <= before.Keys
        invariant objects.Keys == before.Keys
        invariant forall r :: r in before && r !in pending ==> objects[r] == Processed(before[r], c)
        invariant forall r :: r in pending ==> objects[r] == before[r]
        decreases pending
      {
        var r :| r in pending;
        ProcessObject(c, r);
        pending := pending - {r};
      }
      ClearMetadata();
    }
  }
}
