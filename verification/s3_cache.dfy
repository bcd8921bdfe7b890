/** The S3 tile cache: its configuration (layout selection and the required
    settings), the max-zoom gate, the bookkeeping structure the libs3
    callbacks share with the get and put drivers, and the tile operations
    built on them. The S3 requests themselves are inputs: a response is the
    properties, the data chunks and the final status libs3 would report. */
module S3Cache {
  import opened Common
  import opened Text
  import opened Raster
  import opened S3Keys

  // ---------------------------------------------------------------------------
  // libs3 status and the callbacks' bookkeeping

  /** The statuses the callbacks distinguish. */
  datatype S3Status = StatusOK | ErrorNoSuchKey | AbortedByCallback | OtherStatus(code: int)

  /** `responseCompleteCallback`: 0 for success, 1 for a missing key, 2 for
      anything else. */
  function StatusCode(s: S3Status): (c: int)
    ensures c == 0 <==> s == StatusOK
    ensures c == 1 <==> s == ErrorNoSuchKey
    ensures c == 2 <==> s != StatusOK && s != ErrorNoSuchKey
  {
    if s == StatusOK then 0 else if s == ErrorNoSuchKey then 1 else 2
  }

  /** `object_userdata`: the buffer being filled or sent, the final status,
      the object's length and modification time, the position reached and
      whether the properties callback allocates the buffer. */
  class ObjectUserData {
    var buffer: array?<Byte>
    var status: int
    var length: int
    var lastModified: int
    var memoryPos: int
    var createBuffer: bool

    /** The position stays within the object, and the buffer, once there, is
        exactly as long as the object. */
    ghost predicate Valid()
      reads this
    {
      0 <= memoryPos && (buffer != null ==> memoryPos <= length && buffer.Length == length)
    }

    /** A fresh structure with no buffer. */
    constructor (createBuffer: bool)
      ensures Valid() && buffer == null && memoryPos == 0 && length == 0 && status == 0
      ensures this.createBuffer == createBuffer
    {
      buffer := null;
      status := 0;
      length := 0;
      lastModified := 0;
      memoryPos := 0;
      this.createBuffer := createBuffer;
    }

    /** `responsePropertiesCallback`: the position goes back to 0, length
        and modification time are recorded, and a buffer of `length` bytes
        is allocated only for a positive length when the driver asks for one. */
    method Properties(contentLength: nat, modified: int) returns (st: S3Status)
      requires Valid() && buffer == null
      modifies this
      ensures Valid() && st == StatusOK
      ensures memoryPos == 0 && length == contentLength && lastModified == modified
      ensures status == old(status) && createBuffer == old(createBuffer)
      ensures buffer != null <==> contentLength > 0 && createBuffer
      ensures buffer != null ==> fresh(buffer)
    {
      memoryPos := 0;
      length := contentLength;
      lastModified := modified;
      if length > 0 && createBuffer {
        buffer := new Byte[length];
      }
      st := StatusOK;
    }

    /** `responseCompleteCallback`. */
    method Complete(s: S3Status)
      modifies this
      ensures status == StatusCode(s)
      ensures buffer == old(buffer) && length == old(length) && memoryPos == old(memoryPos)
      ensures createBuffer == old(createBuffer) && lastModified == old(lastModified)
    {
      if s == StatusOK {
        status := 0;
      } else if s == ErrorNoSuchKey {
        status := 1;
      } else {
        status := 2;
      }
    }

    /** `getObjectDataCallback`: aborts without a buffer or when the chunk
        would run past the object's length; otherwise copies the chunk at the
        position and advances it, so the position never passes the length. */
    method GetData(chunk: seq<Byte>) returns (st: S3Status)
      requires Valid()
      modifies this, buffer
      ensures Valid() && buffer == old(buffer) && length == old(length)
      ensures status == old(status) && createBuffer == old(createBuffer)
      ensures st == StatusOK <==> buffer != null && old(memoryPos) + |chunk| <= length
      ensures st != StatusOK ==> st == AbortedByCallback && memoryPos == old(memoryPos) &&
                                 (buffer != null ==> buffer[..] == old(buffer[..]))
      ensures st == StatusOK ==>
                memoryPos == old(memoryPos) + |chunk| &&
                buffer[..] == old(buffer[..memoryPos]) + chunk + old(buffer[memoryPos + |chunk|..])
    {
      if buffer == null {
        return AbortedByCallback;
      }
      if |chunk| + memoryPos > length {
        return AbortedByCallback;
      }
      CopyAt(buffer, memoryPos, chunk);
      memoryPos := memoryPos + |chunk|;
      st := StatusOK;
    }

    /** The `memcpy` of `getObjectDataCallback`: the chunk written over the
        array from `pos` on, everything else kept. */
    static method CopyAt(a: array<Byte>, pos: int, chunk: seq<Byte>)
      requires 0 <= pos && pos + |chunk| <= a.Length
      modifies a
      ensures a[..] == old(a[..pos]) + chunk + old(a[pos + |chunk|..])
    {
      var i := 0;
      while i < |chunk|
        invariant 0 <= i <= |chunk|
        invariant a[..] == old(a[..pos]) + chunk[..i] + old(a[pos + i..])
      {
        a[pos + i] := chunk[i];
        assert chunk[..i + 1] == chunk[..i] + [chunk[i]];
        i := i + 1;
      }
    }

    /** `putObjectDataCallback`: 0 once the whole object was handed out;
        otherwise the next `bufferSize` bytes at the position, which then
        advances. libs3 never asks for more than the bytes that remain. */
    method PutData(bufferSize: int) returns (n: int, out: seq<Byte>)
      requires Valid() && buffer != null && 0 <= bufferSize
      requires memoryPos < length ==> memoryPos + bufferSize <= length
      modifies this
      ensures Valid() && buffer == old(buffer) && length == old(length)
      ensures n == (if old(memoryPos) >= length then 0 else bufferSize)
      ensures memoryPos == old(memoryPos) + n
      ensures out == buffer[old(memoryPos)..old(memoryPos) + n]
    {
      if memoryPos >= length {
        return 0, [];
      }
      out := buffer[memoryPos..memoryPos + bufferSize];
      memoryPos := memoryPos + bufferSize;
      n := bufferSize;
    }
  }

  // ---------------------------------------------------------------------------
  // The get and put drivers

  /** What libs3 reports for one request: the response properties (content
      length and modification time) if headers arrived, the body chunks in
      order, and the final status. */
  datatype Response = Response(props: Option<(nat, int)>, chunks: seq<seq<Byte>>, final: S3Status)

  function Concat(cs: seq<seq<Byte>>): seq<Byte>
  {
    if cs == [] then [] else Concat(cs[..|cs| - 1]) + cs[|cs| - 1]
  }

  lemma {:induction false} ConcatPrefix(cs: seq<seq<Byte>>, i: nat)
    requires i <= |cs|
    ensures |Concat(cs[..i])| <= |Concat(cs)|
  {
    if i < |cs| {
      var n := |cs| - 1;
      assert cs[..n][..i] == cs[..i];
      ConcatPrefix(cs[..n], i);
    } else {
      assert cs[..i] == cs;
    }
  }

  /** Whether the properties callback allocates a buffer for this response. */
  predicate HasBuffer(r: Response) { r.props.Some? && r.props.value.0 > 0 }

  /** A data chunk is refused: some chunk arrives while there is no buffer,
      or the chunks together exceed the announced length. */
  predicate Aborts(r: Response)
  {
    r.chunks != [] && (!HasBuffer(r) || |Concat(r.chunks)| > r.props.value.0)
  }

  /** `GetS3`: a fresh structure that asks for a buffer, the properties
      callback, the data callbacks until one aborts, and the completion
      callback with the status libs3 ends with (aborted by callback when a
      chunk was refused). The buffer starts with every chunk received. */
  method GetObject(r: Response) returns (gu: ObjectUserData)
    ensures fresh(gu) && gu.Valid()
    ensures gu.status == StatusCode(if Aborts(r) then AbortedByCallback else r.final)
    ensures gu.buffer != null <==> HasBuffer(r)
    ensures gu.buffer != null ==> fresh(gu.buffer) && gu.length == r.props.value.0
    ensures gu.buffer != null && !Aborts(r) ==>
              |Concat(r.chunks)| <= gu.length && gu.buffer[..|Concat(r.chunks)|] == Concat(r.chunks)
  {
    gu := new ObjectUserData(true);
    if r.props.Some? {
      var _ := gu.Properties(r.props.value.0, r.props.value.1);
    }
    var i := 0;
    var aborted := false;
    while i < |r.chunks| && !aborted
      invariant 0 <= i <= |r.chunks| && gu.Valid() && gu.createBuffer
      invariant gu.buffer != null <==> HasBuffer(r)
      invariant gu.buffer != null ==> fresh(gu.buffer) && gu.length == r.props.value.0
      invariant !aborted ==> gu.buffer != null ==>
                  gu.memoryPos == |Concat(r.chunks[..i])| && gu.buffer[..gu.memoryPos] == Concat(r.chunks[..i])
      invariant !aborted && i > 0 ==> gu.buffer != null
      invariant aborted <==> Aborts(r) && i > 0 && (gu.buffer == null || |Concat(r.chunks[..i])| > gu.length)
    {
      ghost var pos := gu.memoryPos;
      var st := gu.GetData(r.chunks[i]);
      assert r.chunks[..i + 1][..i] == r.chunks[..i];
      if st != StatusOK {
        aborted := true;
        if gu.buffer != null {
          ConcatPrefix(r.chunks, i + 1);
        }
      } else {
        assert gu.buffer[..gu.memoryPos] == gu.buffer[..pos] + r.chunks[i];
      }
      i := i + 1;
    }
    if !aborted && gu.buffer != null {
      assert r.chunks[..i] == r.chunks;
    }
    if !aborted && i == |r.chunks| && r.chunks != [] && gu.buffer != null {
      assert r.chunks[..i] == r.chunks;
    }
    gu.Complete(if aborted then AbortedByCallback else r.final);
  }

  /** The driver libs3 runs for `SetS3`: after the early return for an empty
      object, the put callback is asked for at most `chunk` bytes at a time
      until the whole object was sent; the bytes sent are the buffer. */
  method PutObject(data: seq<Byte>, chunk: int) returns (sent: seq<Byte>)
    requires chunk > 0
    ensures sent == data
  {
    if |data| == 0 {
      return [];
    }
    var arr := new Byte[|data|](k requires 0 <= k < |data| => data[k]);
    var gu := new ObjectUserData(false);
    gu.buffer := arr;
    gu.length := |data|;
    gu.memoryPos := 0;
    sent := [];
    while gu.memoryPos < gu.length
      invariant gu.Valid() && gu.buffer == arr && gu.length == |data| && arr[..] == data
      invariant sent == data[..gu.memoryPos]
      decreases gu.length - gu.memoryPos
    {
      var ask := if chunk < gu.length - gu.memoryPos then chunk else gu.length - gu.memoryPos;
      ghost var pos := gu.memoryPos;
      var n, out := gu.PutData(ask);
      assert data[..pos + n] == data[..pos] + data[pos..pos + n];
      sent := sent + out;
    }
    assert data[..gu.memoryPos] == data;
  }

  // ---------------------------------------------------------------------------
  // Configuration

  /** The `<cache type="s3">` element as parsed: the `layout` attribute and
      the text of each child element that is present. */
  datatype CacheXml = CacheXml(layout: Option<string>, template: Option<string>, base: Option<string>,
                               accessKey: Option<string>, secretKey: Option<string>,
                               host: Option<string>, bucket: Option<string>, maxzoom: Option<string>)

  /** The configuration errors, each with code 400. */
  datatype ConfigError = NoTemplate | UnknownLayout | NoBaseOrTemplate | MissingSettings

  /** The layout attribute: absent, empty or "tilecache" select the
      tilecache layout, "arcgis" and "template" their own, anything else is
      unknown. */
  function LayoutOf(attr: Option<string>): (l: Option<Layout>)
    ensures l.None? <==> attr.Some? && attr.value !in {"", "tilecache", "arcgis", "template"}
    ensures l == Some(Arcgis) <==> attr == Some("arcgis")
    ensures l == Some(Template) <==> attr == Some("template")
  {
    if attr.None? || attr.value == "" || attr.value == "tilecache" then Some(Tilecache)
    else if attr.value == "arcgis" then Some(Arcgis)
    else if attr.value == "template" then Some(Template)
    else None
  }

  /** A set string that is not empty. */
  predicate NonEmpty(s: Option<string>) { s.Some? && |s.value| > 0 }

  /** `mapcache_cache_s3`: the configured key layout and settings. */
  class S3Cache {
    var layout: Layout
    var base: Option<string>
    var template: Option<string>
    var accessKey: Option<string>
    var secretKey: Option<string>
    var host: Option<string>
    var bucket: Option<string>
    var maxzoom: int

    /** `mapcache_cache_s3_create`: nothing set, maxzoom 0. */
    constructor ()
      ensures layout == Tilecache && base.None? && template.None?
      ensures accessKey.None? && secretKey.None? && host.None? && bucket.None? && maxzoom == 0
    {
      layout := Tilecache;
      base, template := None, None;
      accessKey, secretKey, host, bucket := None, None, None, None;
      maxzoom := 0;
    }

    /** `_mapcache_cache_s3_configuration_parse_xml`: selects the layout
        (error 400 for an unknown one, or for the template layout without a
        `<template>`); reads `<base>` except with the template layout, the
        four access settings and `<maxzoom>` by `atoi`; each only when its
        element is present. */
    method ParseXml(node: CacheXml) returns (err: Option<Error<ConfigError>>)
      modifies this
      ensures LayoutOf(node.layout).None? ==> err == Some(Error(400, UnknownLayout))
      ensures LayoutOf(node.layout) == Some(Template) && node.template.None? ==> err == Some(Error(400, NoTemplate))
      ensures err.None? <==> LayoutOf(node.layout).Some? && (LayoutOf(node.layout) == Some(Template) ==> node.template.Some?)
      ensures err.None? ==>
                layout == LayoutOf(node.layout).value &&
                template == (if layout == Template then node.template else old(template)) &&
                base == (if layout != Template && node.base.Some? then node.base else old(base)) &&
                accessKey == (if node.accessKey.Some? then node.accessKey else old(accessKey)) &&
                secretKey == (if node.secretKey.Some? then node.secretKey else old(secretKey)) &&
                host == (if node.host.Some? then node.host else old(host)) &&
                bucket == (if node.bucket.Some? then node.bucket else old(bucket)) &&
                maxzoom == (if node.maxzoom.Some? then StrToL(node.maxzoom.value).0 else old(maxzoom))
    {
      var sel := LayoutOf(node.layout);
      if sel.None? {
        return Some(Error(400, UnknownLayout));
      }
      layout := sel.value;
      if layout == Template {
        if node.template.None? {
          return Some(Error(400, NoTemplate));
        }
        template := node.template;
      } else if node.base.Some? {
        base := node.base;
      }
      ReadSettings(node);
      err := None;
    }

    /** The part of `_mapcache_cache_s3_configuration_parse_xml` after the
        layout: the four access settings and `<maxzoom>`, each only when its
        element is present; layout, template and base untouched. */
    method ReadSettings(node: CacheXml)
      modifies this
      ensures layout == old(layout) && template == old(template) && base == old(base)
      ensures accessKey == (if node.accessKey.Some? then node.accessKey else old(accessKey))
      ensures secretKey == (if node.secretKey.Some? then node.secretKey else old(secretKey))
      ensures host == (if node.host.Some? then node.host else old(host))
      ensures bucket == (if node.bucket.Some? then node.bucket else old(bucket))
      ensures maxzoom == (if node.maxzoom.Some? then StrToL(node.maxzoom.value).0 else old(maxzoom))
    {
      if node.accessKey.Some? { accessKey := node.accessKey; }
      if node.secretKey.Some? { secretKey := node.secretKey; }
      if node.host.Some? { host := node.host; }
      if node.bucket.Some? { bucket := node.bucket; }
      if node.maxzoom.Some? { maxzoom := StrToL(node.maxzoom.value).0; }
    }

    /** `_mapcache_cache_s3_configuration_post_config`: a non-empty base
        directory or template, and all four access settings, else 400. */
    method PostConfig() returns (err: Option<Error<ConfigError>>)
      ensures err.None? <==> (NonEmpty(base) || NonEmpty(template)) &&
                             accessKey.Some? && secretKey.Some? && host.Some? && bucket.Some?
      ensures !NonEmpty(base) && !NonEmpty(template) ==> err == Some(Error(400, NoBaseOrTemplate))
      ensures err.Some? ==> err.value.code == 400
    {
      if !NonEmpty(base) && !NonEmpty(template) {
        return Some(Error(400, NoBaseOrTemplate));
      }
      if accessKey.None? || secretKey.None? || host.None? || bucket.None? {
        return Some(Error(400, MissingSettings));
      }
      err := None;
    }

    /** Every tile gets a key: the template layout has a template, the two
        other layouts a non-empty base directory. */
    predicate KeysDefined()
      reads this
    {
      (layout == Template ==> NonEmpty(template)) && (layout != Template ==> NonEmpty(base))
    }

    /** The key of a tile under this cache's layout. The tile's level must
        exist for the template layout. */
    method Key(t: TileRef) returns (r: Result<string, KeyError>)
      requires layout == Template ==> 0 <= t.z < |t.levels|
      requires layout == Tilecache && base.None? ==> 0 <= t.z < |t.levels|
      ensures r == KeyOf(layout, base, TemplateText(), t)
      ensures KeysDefined() ==> r.Ok?
      ensures layout == Arcgis && base.None? ==> r.Err?
      ensures r.Ok? && layout == Template ==> r.value == TemplateKey(TemplateText(), t)
    {
      r := TileKey(layout, base, TemplateText(), t);
    }

    /** The configured template, empty when none is set. */
    function TemplateText(): string
      reads this
    {
      if template.Some? then template.value else ""
    }

    /** `_mapcache_cache_s3_has_tile`: FALSE above maxzoom or without a key;
        otherwise whether the HEAD request ended with status 0. */
    method HasTile(t: TileRef, head: S3Status) returns (b: bool)
      requires layout == Template || (layout == Tilecache && base.None?) ==> 0 <= t.z < |t.levels|
      ensures Gated(maxzoom, t.z) ==> !b
      ensures KeysDefined() ==> (b <==> !Gated(maxzoom, t.z) && head == StatusOK)
    {
      if Gated(maxzoom, t.z) {
        return false;
      }
      var key := Key(t);
      if key.Err? {
        return false;
      }
      var gu := new ObjectUserData(false);
      gu.Complete(head);
      b := gu.status == 0;
    }

    /** `_mapcache_cache_s3_get`: CACHE_MISS above maxzoom; FAILURE without a
        key; otherwise the GET's outcome: SUCCESS with a buffer holding the
        body when the status is 0 and a buffer was allocated, CACHE_MISS for
        a missing key, FAILURE for everything else. */
    method GetTile(t: TileRef, r: Response) returns (code: CacheCode, data: Buffer?)
      requires layout == Template || (layout == Tilecache && base.None?) ==> 0 <= t.z < |t.levels|
      ensures Gated(maxzoom, t.z) ==> code == CacheMiss && data == null
      ensures KeysDefined() && !Gated(maxzoom, t.z) ==>
                code == GetCode(r) && (code == Success <==> data != null)
      ensures data != null ==>
                fresh(data) && HasBuffer(r) && data.size == r.props.value.0 && data.avail == data.size &&
                data.buf.Length == data.size &&
                |Concat(r.chunks)| <= data.size && data.buf[..|Concat(r.chunks)|] == Concat(r.chunks)
    {
      if Gated(maxzoom, t.z) {
        return CacheMiss, null;
      }
      var key := Key(t);
      if key.Err? {
        return Failure, null;
      }
      var gu := GetObject(r);
      if gu.status == 0 {
        if gu.buffer != null {
          data := new Buffer(gu.buffer, gu.length, gu.length);
          return Success, data;
        }
      } else if gu.status == 1 {
        return CacheMiss, null;
      }
      return Failure, null;
    }

    /** `_mapcache_cache_s3_set`: the key first, then the encoding of a tile
        that has no encoded data, then the maxzoom gate (so a gated tile is
        still encoded but never written), then `SetS3`, which writes nothing
        for an empty buffer. The outcome says what was uploaded under which
        key. */
    method SetTile(t: TileRef, encoded: Option<seq<Byte>>, encode: Result<seq<Byte>, EncoderError>, chunk: int)
      returns (o: SetOutcome)
      requires chunk > 0
      requires layout == Template || (layout == Tilecache && base.None?) ==> 0 <= t.z < |t.levels|
      ensures Gated(maxzoom, t.z) ==> !o.Uploaded?
      ensures o.Uploaded? ==> Ok(o.key) == KeyOf(layout, base, TemplateText(), t)
      ensures KeyOf(layout, base, TemplateText(), t).Err? ==> o == KeyFailed(KeyOf(layout, base, TemplateText(), t).error)
      ensures o.Uploaded? ==>
                (if encoded.Some? then Ok(encoded.value) else encode) == Ok(o.bytes) && |o.bytes| > 0
      ensures KeysDefined() ==>
                var bytes := if encoded.Some? then Ok(encoded.value) else encode;
                (bytes.Err? ==> o == EncodeFailed(bytes.error)) &&
                (bytes.Ok? && !Gated(maxzoom, t.z) && |bytes.value| > 0 ==> o.Uploaded?)
    {
      var key := Key(t);
      if key.Err? {
        return KeyFailed(key.error);
      }
      var bytes: seq<Byte>;
      if encoded.Some? {
        bytes := encoded.value;
      } else {
        if encode.Err? {
          return EncodeFailed(encode.error);
        }
        bytes := encode.value;
      }
      if Gated(maxzoom, t.z) {
        return NotWritten;
      }
      if |bytes| == 0 {
        return NotWritten;
      }
      var sent := PutObject(bytes, chunk);
      o := Uploaded(key.value, sent);
    }
  }

  /** The max-zoom gate: with maxzoom set (positive), levels above it are
      neither read from nor written to the cache. */
  predicate Gated(maxzoom: int, z: int) { maxzoom > 0 && z > maxzoom }

  /** An unset maxzoom (0, as the cache is allocated) gates no level, and a
      gated level gates every level above it. */
  lemma GatedAbove(maxzoom: int, z: int, z': int)
    ensures !Gated(0, z)
    ensures Gated(maxzoom, z) && z <= z' ==> Gated(maxzoom, z')
  {
  }

  /** `MAPCACHE_SUCCESS`, `MAPCACHE_CACHE_MISS`, `MAPCACHE_FAILURE`. */
  datatype CacheCode = Success | CacheMiss | Failure

  /** The outcome of a GET that was sent: success needs a completed request
      with status OK and a buffer, a missing key is a cache miss, and an
      aborted transfer is a failure whatever the server said. */
  function GetCode(r: Response): (c: CacheCode)
    ensures c == Success <==> !Aborts(r) && r.final == StatusOK && HasBuffer(r)
    ensures c == CacheMiss <==> !Aborts(r) && r.final == ErrorNoSuchKey
    ensures Aborts(r) ==> c == Failure
  {
    var s := if Aborts(r) then AbortedByCallback else r.final;
    if StatusCode(s) == 0 then (if HasBuffer(r) then Success else Failure)
    else if StatusCode(s) == 1 then CacheMiss
    else Failure
  }

  /** The error the tileset's format writer raises when it cannot encode
      the tile's image. */
  datatype EncoderError = EncoderFailed

  /** What a set did: failed for want of a key, failed to encode, wrote
      nothing, or uploaded these bytes under this key. */
  datatype SetOutcome =
    | KeyFailed(keyError: Error<KeyError>)
    | EncodeFailed(encodeError: Error<EncoderError>)
    | NotWritten
    | Uploaded(key: string, bytes: seq<Byte>)

  /** A configuration that passes both parse and post-config checks always
      yields a key: the arcgis and tilecache layouts then have a base
      directory and the template layout a template. */
  method Configure(node: CacheXml) returns (r: Result<S3Cache, ConfigError>)
    ensures r.Ok? ==> fresh(r.value) && r.value.KeysDefined()
    ensures r.Ok? <==> (LayoutOf(node.layout).Some? &&
                        (if LayoutOf(node.layout) == Some(Template) then NonEmpty(node.template) else NonEmpty(node.base)) &&
                        node.accessKey.Some? && node.secretKey.Some? && node.host.Some? && node.bucket.Some?)
  {
    var cache := new S3Cache();
    var err := cache.ParseXml(node);
    if err.Some? {
      return Err(err.value);
    }
    err := cache.PostConfig();
    if err.Some? {
      return Err(err.value);
    }
    return Ok(cache);
  }
}
