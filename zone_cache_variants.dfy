/** The zone cache-variants resource. Its state holds, for each of eleven
    image formats, the list of content types the zone's cache varies on.
    Create and Update build a payload from the formats present in the
    configuration and send it; Read copies the API's answer back into the
    state, treating an error that mentions "HTTP status 404" as "the resource
    is gone"; Delete forwards the deletion and surfaces every error. */
module ZoneCacheVariants {
  import opened Common

  /** The eleven image formats, in the order the resource handles them. */
  datatype Format = Avif | Bmp | Gif | Jpeg | Jpg | Jp2 | Jpg2 | Png | Tif | Tiff | Webp

  const Formats: seq<Format> := [Avif, Bmp, Gif, Jpeg, Jpg, Jp2, Jpg2, Png, Tif, Tiff, Webp]

  /** The state key (and JSON field) of each format. */
  function Key(f: Format): string
  {
    match f
    case Avif => "avif"
    case Bmp => "bmp"
    case Gif => "gif"
    case Jpeg => "jpeg"
    case Jpg => "jpg"
    case Jp2 => "jp2"
    case Jpg2 => "jpg2"
    case Png => "png"
    case Tif => "tif"
    case Tiff => "tiff"
    case Webp => "webp"
  }

  /** Where a format stands in `Formats`. */
  function Pos(f: Format): (i: nat)
    ensures i < |Formats| && Formats[i] == f
  {
    match f
    case Avif => 0
    case Bmp => 1
    case Gif => 2
    case Jpeg => 3
    case Jpg => 4
    case Jp2 => 5
    case Jpg2 => 6
    case Png => 7
    case Tif => 8
    case Tiff => 9
    case Webp => 10
  }

  /** The formats, one by one, in the order of `Formats`. */
  lemma FormatsInOrder()
    ensures && Formats[0] == Avif && Formats[1] == Bmp && Formats[2] == Gif && Formats[3] == Jpeg
            && Formats[4] == Jpg && Formats[5] == Jp2 && Formats[6] == Jpg2 && Formats[7] == Png
            && Formats[8] == Tif && Formats[9] == Tiff && Formats[10] == Webp
  {
  }

  /** `Pos` inverts indexing into `Formats`. */
  lemma PosOfFormatAt(i: nat)
    requires i < |Formats|
    ensures Pos(Formats[i]) == i
  {
  }

  /** Different formats have different state keys. The model keys the state,
      the Set calls and SetFailed by Format; this lemma documents that doing
      so loses nothing against the source's key strings. */
  lemma KeysDistinct(f: Format, g: Format)
    ensures Key(f) == Key(g) ==> f == g
  {
  }

  /** cloudflare.ZoneCacheVariantsValues: per format, the content types to
      vary on. The empty list stands for Go's nil slice, which the API
      client omits from the request. */
  datatype Values = Values(
    avif: seq<string>, bmp: seq<string>, gif: seq<string>, jpeg: seq<string>,
    jpg: seq<string>, jp2: seq<string>, jpg2: seq<string>, png: seq<string>,
    tif: seq<string>, tiff: seq<string>, webp: seq<string>)

  /** The zero value of the payload struct: every field unset. */
  const NoValues := Values([], [], [], [], [], [], [], [], [], [], [])

  function Field(v: Values, f: Format): seq<string>
  {
    match f
    case Avif => v.avif
    case Bmp => v.bmp
    case Gif => v.gif
    case Jpeg => v.jpeg
    case Jpg => v.jpg
    case Jp2 => v.jp2
    case Jpg2 => v.jpg2
    case Png => v.png
    case Tif => v.tif
    case Tiff => v.tiff
    case Webp => v.webp
  }

  /** Two payloads with the same list in every field are the same payload. */
  lemma {:induction false} FieldsDetermine(v: Values, w: Values)
    requires forall f :: Field(v, f) == Field(w, f)
    ensures v == w
  {
    assert Field(v, Avif) == Field(w, Avif) && Field(v, Bmp) == Field(w, Bmp);
    assert Field(v, Gif) == Field(w, Gif) && Field(v, Jpeg) == Field(w, Jpeg);
    assert Field(v, Jpg) == Field(w, Jpg) && Field(v, Jp2) == Field(w, Jp2);
    assert Field(v, Jpg2) == Field(w, Jpg2) && Field(v, Png) == Field(w, Png);
    assert Field(v, Tif) == Field(w, Tif) && Field(v, Tiff) == Field(w, Tiff);
    assert Field(v, Webp) == Field(w, Webp);
  }

  /** The list stored under `key`, or the empty list when the key is absent. */
  function Lookup(m: map<Format, seq<string>>, key: Format): seq<string>
  {
    if key in m then m[key] else []
  }

  /** ResourceData.GetOk on a set-valued key: "ok" only when the key holds a
      non-empty set (the framework reports an empty set as not set). */
  function GetOk(m: map<Format, seq<string>>, key: Format): Option<seq<string>>
  {
    if key in m && m[key] != [] then Some(m[key]) else None
  }

  /** The payload the formats in `m` call for (see PayloadField). */
  function Payload(m: map<Format, seq<string>>): Values
  {
    Values(Lookup(m, Avif), Lookup(m, Bmp), Lookup(m, Gif), Lookup(m, Jpeg),
           Lookup(m, Jpg), Lookup(m, Jp2), Lookup(m, Jpg2), Lookup(m, Png),
           Lookup(m, Tif), Lookup(m, Tiff), Lookup(m, Webp))
  }

  /** Each payload field holds the list under its own format key, and is
      empty when that key is absent. */
  lemma PayloadField(m: map<Format, seq<string>>, f: Format)
    ensures Field(Payload(m), f) == Lookup(m, f)
  {
  }

  /** A configuration without any format key yields the all-empty payload,
      so an update leaves every format it does not mention alone. */
  lemma PayloadOfNoFormats(m: map<Format, seq<string>>)
    requires forall f :: f !in m
    ensures Payload(m) == NoValues
  {
    forall f ensures Field(Payload(m), f) == Field(NoValues, f) {
      PayloadField(m, f);
    }
    FieldsDetermine(Payload(m), NoValues);
  }

  /** Fields are independent: adding a format key, or changing what it
      holds, never changes the payload field of any other format. */
  lemma PayloadIndependent(m: map<Format, seq<string>>, key: Format, list: seq<string>, f: Format)
    requires key != f
    ensures Field(Payload(m[key := list]), f) == Field(Payload(m), f)
  {
    PayloadField(m, f);
    PayloadField(m[key := list], f);
  }

  datatype Diagnostic =
    | ReadFailed(zone: string, cause: ApiError)
    | SetFailed(key: Format)
    | UpdateFailed(zone: string, cause: ApiError)
    | DeleteFailed(zone: string, cause: ApiError)

  const NotFoundMarker: string := "HTTP status 404"

  /** Read's test for "the zone's cache variants no longer exist". */
  predicate IsNotFound(e: ApiError)
    ensures IsNotFound(e) <==> exists i :: OccursAt(e.message, "HTTP status 404", i)
  {
    Contains(e.message, NotFoundMarker)
  }

  /** `key` is absent from both maps, or present in both with the same list. */
  predicate SameAt(a: map<Format, seq<string>>, b: map<Format, seq<string>>, key: Format)
  {
    (key in a <==> key in b) && (key in a ==> a[key] == b[key])
  }

  /** The index of the first format, at or after `i`, whose key the schema
      refuses to set; `|Formats|` when there is none. */
  function FirstRejectedFrom(rejected: set<Format>, i: nat): (n: nat)
    requires i <= |Formats|
    ensures i <= n <= |Formats|
    ensures forall j :: i <= j < n ==> Formats[j] !in rejected
    ensures n < |Formats| ==> Formats[n] in rejected
    decreases |Formats| - i
  {
    if i == |Formats| then i
    else if Formats[i] in rejected then i
    else FirstRejectedFrom(rejected, i + 1)
  }

  /** Read's writes of the API's answer `v` into the format keys `m`, from the
      `i`-th format on and in order: each key is set unless the schema refuses
      it, in which case the writing stops with a diagnostic naming that key. */
  ghost function WriteFrom(m: map<Format, seq<string>>, v: Values, rejected: set<Format>, i: nat)
    : (r: (map<Format, seq<string>>, Option<Diagnostic>))
    requires i <= |Formats|
    ensures r.1.Some? ==> r.1.value.SetFailed? && r.1.value.key in rejected
    ensures m.Keys <= r.0.Keys
    decreases |Formats| - i
  {
    if i == |Formats| then (m, None)
    else if Formats[i] in rejected then (m, Some(SetFailed(Formats[i])))
    else WriteFrom(m[Formats[i] := Field(v, Formats[i])], v, rejected, i + 1)
  }

  /** The writes from the `i`-th format on set format `f` exactly when it
      comes before the first refused key, and otherwise leave it as it was. */
  lemma {:induction false} WriteFromAt(m: map<Format, seq<string>>, v: Values, rejected: set<Format>,
                                       i: nat, f: Format)
    requires i <= |Formats|
    ensures var out := WriteFrom(m, v, rejected, i).0;
            var n := FirstRejectedFrom(rejected, i);
            && (i <= Pos(f) < n ==> f in out && out[f] == Field(v, f))
            && (!(i <= Pos(f) < n) ==> SameAt(out, m, f))
    decreases |Formats| - i
  {
    if i < |Formats| && Formats[i] !in rejected {
      PosOfFormatAt(i);
      WriteFromAt(m[Formats[i] := Field(v, Formats[i])], v, rejected, i + 1, f);
    }
  }

  /** The writes from the `i`-th format on fail exactly when some key from
      there on is refused, and the diagnostic names the first. */
  lemma {:induction false} WriteFromDiag(m: map<Format, seq<string>>, v: Values, rejected: set<Format>, i: nat)
    requires i <= |Formats|
    ensures var n := FirstRejectedFrom(rejected, i);
            WriteFrom(m, v, rejected, i).1 == if n < |Formats| then Some(SetFailed(Formats[n])) else None
    decreases |Formats| - i
  {
    if i < |Formats| && Formats[i] !in rejected {
      WriteFromDiag(m[Formats[i] := Field(v, Formats[i])], v, rejected, i + 1);
    }
  }

  /** The outcome of a Read: the new ID, the new format keys, the diagnostic. */
  datatype Outcome = Outcome(id: string, formats: map<Format, seq<string>>, diag: Option<Diagnostic>)

  /** What Read does to a state with ID `id` and format keys `m`, given the
      API's answer `got` for that ID. */
  ghost function ReadSpec(id: string, m: map<Format, seq<string>>, rejected: set<Format>,
                          got: Result<Values, ApiError>): Outcome
  {
    match got
    case Err(e) =>
      if IsNotFound(e) then Outcome("", m, None)
      else Outcome(id, m, Some(ReadFailed(id, e)))
    case Ok(v) =>
      var (out, diag) := WriteFrom(m, v, rejected, 0);
      Outcome(id, out, diag)
  }

  /** A "404" error clears the ID and is not an error; any other error keeps
      the ID and the formats and is reported, wrapped with the zone. */
  lemma ReadErrors(id: string, m: map<Format, seq<string>>, rejected: set<Format>, e: ApiError)
    ensures Contains(e.message, "HTTP status 404") ==>
      ReadSpec(id, m, rejected, Err(e)) == Outcome("", m, None)
    ensures !Contains(e.message, "HTTP status 404") ==>
      ReadSpec(id, m, rejected, Err(e)) == Outcome(id, m, Some(ReadFailed(id, e)))
  {
  }

  /** A successful Read that the schema accepts writes each API field to the
      state key of the same name and keeps the ID. */
  lemma ReadStoresEveryField(id: string, m: map<Format, seq<string>>, rejected: set<Format>, v: Values)
    requires forall f :: f !in rejected
    ensures var o := ReadSpec(id, m, rejected, Ok(v));
      && o.id == id && o.diag == None
      && (forall f :: f in o.formats && o.formats[f] == Field(v, f))
  {
    assert FirstRejectedFrom(rejected, 0) == |Formats|;
    WriteFromDiag(m, v, rejected, 0);
    forall f ensures f in WriteFrom(m, v, rejected, 0).0 && WriteFrom(m, v, rejected, 0).0[f] == Field(v, f) {
      WriteFromAt(m, v, rejected, 0, f);
    }
  }

  /** When the schema refuses a key, Read stops at the first refused format
      `g`: the formats before it are written, `g` and those after keep their
      earlier values, and the diagnostic names `g`. */
  lemma ReadStopsAtRejectedKey(id: string, m: map<Format, seq<string>>, rejected: set<Format>,
                               v: Values, g: Format)
    requires g in rejected
    requires forall h :: Pos(h) < Pos(g) ==> h !in rejected
    ensures var o := ReadSpec(id, m, rejected, Ok(v));
      && o.id == id && o.diag == Some(SetFailed(g))
      && (forall h :: Pos(h) < Pos(g) ==> h in o.formats && o.formats[h] == Field(v, h))
      && (forall h :: Pos(h) >= Pos(g) ==> SameAt(o.formats, m, h))
  {
    var n := FirstRejectedFrom(rejected, 0);
    if n < |Formats| {
      PosOfFormatAt(n);
    }
    assert n == Pos(g);
    WriteFromDiag(m, v, rejected, 0);
    forall h ensures Pos(h) < n ==> h in WriteFrom(m, v, rejected, 0).0 && WriteFrom(m, v, rejected, 0).0[h] == Field(v, h)
      ensures Pos(h) >= n ==> SameAt(WriteFrom(m, v, rejected, 0).0, m, h)
    {
      WriteFromAt(m, v, rejected, 0, h);
    }
  }

  /** What a successful Read stores is what the next Update sends: the
      payload built from the refreshed state equals the API's answer. */
  lemma ReadThenPayload(id: string, m: map<Format, seq<string>>, rejected: set<Format>, v: Values)
    requires forall f :: f !in rejected
    ensures Payload(ReadSpec(id, m, rejected, Ok(v)).formats) == v
  {
    ReadStoresEveryField(id, m, rejected, v);
    forall f ensures Field(Payload(ReadSpec(id, m, rejected, Ok(v)).formats), f) == Field(v, f) {
      PayloadField(ReadSpec(id, m, rejected, Ok(v)).formats, f);
    }
    FieldsDetermine(Payload(ReadSpec(id, m, rejected, Ok(v)).formats), v);
  }

  /** The slice of schema.ResourceData this resource uses. */
  class ResourceData {
    const zoneId: string
    /** Keys whose Set the schema refuses (a value of the wrong type). */
    const rejected: set<Format>
    var id: string
    var formats: map<Format, seq<string>>

    constructor (zoneId: string, id: string, formats: map<Format, seq<string>>, rejected: set<Format>)
      ensures this.zoneId == zoneId && this.id == id
      ensures this.formats == formats && this.rejected == rejected
    {
      this.zoneId := zoneId;
      this.id := id;
      this.formats := formats;
      this.rejected := rejected;
    }

    method SetId(v: string)
      modifies this`id
      ensures id == v
    {
      id := v;
    }

    /** ResourceData.Set: stores the list unless the schema refuses the key. */
    method Set(key: Format, value: seq<string>) returns (ok: bool)
      modifies this`formats
      ensures ok <==> key !in rejected
      ensures ok ==> formats == old(formats)[key := value]
      ensures !ok ==> formats == old(formats)
    {
      ok := key !in rejected;
      if ok {
        formats := formats[key := value];
      }
    }
  }

  /** The calls made to the API client, in order. */
  datatype Call = GetVariants(zone: string) | UpdateVariants(zone: string, values: Values) | DeleteVariants(zone: string)

  /** The API client: its answers are inputs, and it records every call. */
  class Client {
    const getResponse: string -> Result<Values, ApiError>
    const updateResponse: (string, Values) -> Option<ApiError>
    const deleteResponse: string -> Option<ApiError>
    var log: seq<Call>

    constructor (getResponse: string -> Result<Values, ApiError>,
                 updateResponse: (string, Values) -> Option<ApiError>,
                 deleteResponse: string -> Option<ApiError>)
      ensures this.getResponse == getResponse && this.updateResponse == updateResponse
      ensures this.deleteResponse == deleteResponse && log == []
    {
      this.getResponse := getResponse;
      this.updateResponse := updateResponse;
      this.deleteResponse := deleteResponse;
      log := [];
    }

    /** The `Value` part of the zone's cache variants, or the API's error. */
    method ZoneCacheVariants(zone: string) returns (r: Result<Values, ApiError>)
      modifies this
      ensures log == old(log) + [GetVariants(zone)] && r == getResponse(zone)
    {
      log := log + [GetVariants(zone)];
      r := getResponse(zone);
    }

    method UpdateZoneCacheVariants(zone: string, values: Values) returns (err: Option<ApiError>)
      modifies this
      ensures log == old(log) + [UpdateVariants(zone, values)] && err == updateResponse(zone, values)
    {
      log := log + [UpdateVariants(zone, values)];
      err := updateResponse(zone, values);
    }

    method DeleteZoneCacheVariants(zone: string) returns (err: Option<ApiError>)
      modifies this
      ensures log == old(log) + [DeleteVariants(zone)] && err == deleteResponse(zone)
    {
      log := log + [DeleteVariants(zone)];
      err := deleteResponse(zone);
    }
  }

  /** One branch of cacheVariantsValuesFromResource: the key's list when
      GetOk reports it set, otherwise the field's zero value. */
  method FieldFromResource(m: map<Format, seq<string>>, key: Format) returns (field: seq<string>)
    ensures field == Lookup(m, key)
  {
    field := [];
    var value := GetOk(m, key);
    if value.Some? {
      field := value.value;
    }
  }

  /** cacheVariantsValuesFromResource: one payload field per format key that
      is set; the fields of keys that are not set keep the zero value. */
  method ValuesFromResource(d: ResourceData) returns (v: Values)
    ensures v == Payload(d.formats)
  {
    var m := d.formats;
    var avif := FieldFromResource(m, Avif);
    var bmp := FieldFromResource(m, Bmp);
    var gif := FieldFromResource(m, Gif);
    var jpeg := FieldFromResource(m, Jpeg);
    var jpg := FieldFromResource(m, Jpg);
    var jp2 := FieldFromResource(m, Jp2);
    var jpg2 := FieldFromResource(m, Jpg2);
    var png := FieldFromResource(m, Png);
    var tif := FieldFromResource(m, Tif);
    var tiff := FieldFromResource(m, Tiff);
    var webp := FieldFromResource(m, Webp);
    v := Values(avif, bmp, gif, jpeg, jpg, jp2, jpg2, png, tif, tiff, webp);
  }

  /** The eleven d.Set calls of the Read callback, in key order: the first
      key the schema refuses stops the sequence with its diagnostic. */
  method SetFormats(d: ResourceData, values: Values) returns (diag: Option<Diagnostic>)
    modifies d`formats
    ensures (d.formats, diag) == WriteFrom(old(d.formats), values, d.rejected, 0)
  {
    diag := SetFirstFormats(d, values);
    if diag.None? {
      diag := SetLastFormats(d, values);
    }
  }

  /** The calls for "avif" to "jp2"; when all succeed, what is left to write
      is the same as at the start. */
  method SetFirstFormats(d: ResourceData, values: Values) returns (diag: Option<Diagnostic>)
    modifies d`formats
    ensures WriteFrom(old(d.formats), values, d.rejected, 0) ==
            if diag.None? then WriteFrom(d.formats, values, d.rejected, 6) else (d.formats, diag)
  {
    var ok: bool;
    FormatsInOrder();
    ghost var written := WriteFrom(d.formats, values, d.rejected, 0);
    ok := d.Set(Avif, values.avif);
    if !ok { return Some(SetFailed(Avif)); }
    assert written == WriteFrom(d.formats, values, d.rejected, 1);
    ok := d.Set(Bmp, values.bmp);
    if !ok { return Some(SetFailed(Bmp)); }
    assert written == WriteFrom(d.formats, values, d.rejected, 2);
    ok := d.Set(Gif, values.gif);
    if !ok { return Some(SetFailed(Gif)); }
    assert written == WriteFrom(d.formats, values, d.rejected, 3);
    ok := d.Set(Jpeg, values.jpeg);
    if !ok { return Some(SetFailed(Jpeg)); }
    assert written == WriteFrom(d.formats, values, d.rejected, 4);
    ok := d.Set(Jpg, values.jpg);
    if !ok { return Some(SetFailed(Jpg)); }
    assert written == WriteFrom(d.formats, values, d.rejected, 5);
    ok := d.Set(Jp2, values.jp2);
    if !ok { return Some(SetFailed(Jp2)); }
    assert written == WriteFrom(d.formats, values, d.rejected, 6);
    return None;
  }

  /** The calls for "jpg2" to "webp". */
  method SetLastFormats(d: ResourceData, values: Values) returns (diag: Option<Diagnostic>)
    modifies d`formats
    ensures (d.formats, diag) == WriteFrom(old(d.formats), values, d.rejected, 6)
  {
    var ok: bool;
    FormatsInOrder();
    ghost var written := WriteFrom(d.formats, values, d.rejected, 6);
    ok := d.Set(Jpg2, values.jpg2);
    if !ok { return Some(SetFailed(Jpg2)); }
    assert written == WriteFrom(d.formats, values, d.rejected, 7);
    ok := d.Set(Png, values.png);
    if !ok { return Some(SetFailed(Png)); }
    assert written == WriteFrom(d.formats, values, d.rejected, 8);
    ok := d.Set(Tif, values.tif);
    if !ok { return Some(SetFailed(Tif)); }
    assert written == WriteFrom(d.formats, values, d.rejected, 9);
    ok := d.Set(Tiff, values.tiff);
    if !ok { return Some(SetFailed(Tiff)); }
    assert written == WriteFrom(d.formats, values, d.rejected, 10);
    ok := d.Set(Webp, values.webp);
    if !ok { return Some(SetFailed(Webp)); }
    assert written == WriteFrom(d.formats, values, d.rejected, 11);
    return None;
  }

  /** resourceCloudflareZoneCacheVariantsRead. */
  method Read(d: ResourceData, client: Client) returns (diag: Option<Diagnostic>)
    modifies d, client
    ensures client.log == old(client.log) + [GetVariants(old(d.id))]
    ensures Outcome(d.id, d.formats, diag) ==
            ReadSpec(old(d.id), old(d.formats), d.rejected, client.getResponse(old(d.id)))
  {
    var response := client.ZoneCacheVariants(d.id);
    if response.Err? {
      if Contains(response.error.message, NotFoundMarker) {
        d.SetId("");
        return None;
      } else {
        return Some(ReadFailed(d.id, response.error));
      }
    }
    var value := response.value;
    assert ReadSpec(d.id, d.formats, d.rejected, response) ==
           Outcome(d.id, WriteFrom(d.formats, value, d.rejected, 0).0, WriteFrom(d.formats, value, d.rejected, 0).1);
    diag := SetFormats(d, value);
  }

  /** resourceCloudflareZoneCacheVariantsUpdate (also the Create callback):
      the ID becomes the zone ID before the API call; an API error is
      reported; on success the resource is read back. */
  method Update(d: ResourceData, client: Client) returns (diag: Option<Diagnostic>)
    modifies d, client
    ensures var zone := d.zoneId;
            var payload := Payload(old(d.formats));
            match client.updateResponse(zone, payload)
            case Some(e) =>
              && client.log == old(client.log) + [UpdateVariants(zone, payload)]
              && d.id == zone && d.formats == old(d.formats)
              && diag == Some(UpdateFailed(zone, e))
            case None =>
              && client.log == old(client.log) + [UpdateVariants(zone, payload), GetVariants(zone)]
              && Outcome(d.id, d.formats, diag) ==
                 ReadSpec(zone, old(d.formats), d.rejected, client.getResponse(zone))
  {
    d.SetId(d.zoneId);
    var variantsValue := ValuesFromResource(d);
    var err := client.UpdateZoneCacheVariants(d.id, variantsValue);
    if err.Some? {
      return Some(UpdateFailed(d.id, err.value));
    }
    diag := Read(d, client);
  }

  /** resourceCloudflareZoneCacheVariantsDelete: every API error is reported,
      a "404" included; the state is not touched. */
  method Delete(d: ResourceData, client: Client) returns (diag: Option<Diagnostic>)
    modifies client
    ensures client.log == old(client.log) + [DeleteVariants(d.id)]
    ensures diag.None? <==> client.deleteResponse(d.id).None?
    ensures diag.Some? ==> diag == Some(DeleteFailed(d.id, client.deleteResponse(d.id).value))
  {
    var err := client.DeleteZoneCacheVariants(d.id);
    if err.Some? {
      return Some(DeleteFailed(d.id, err.value));
    }
    return None;
  }
}
