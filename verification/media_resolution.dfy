/** Resolution of the media references of tour records (`fetchAudioTours` in
    `src/utils/apiCalls.js`): numeric media ids are collected, looked up in one batch and
    replaced by `{url, mime_type, id}` objects; inline objects are kept; anything else
    becomes `null`. The HTTP requests themselves are parameters of this model. */
module MediaResolution {
  import opened Values
  import opened Text
  import opened Seqs
  import opened TourData

  /** One element of the media lookup's answer: `{id, source_url, mime_type}`. */
  datatype MediaRecord = MediaRecord(id: int, sourceUrl: Option<string>, mimeType: Option<string>)

  /** A `mediaMap` value: `{url: m.source_url, mime_type: m.mime_type}`. */
  datatype MediaEntry = MediaEntry(url: Option<string>, mimeType: Option<string>)

  /** The media lookup the loader issues: the endpoint, the ids of its `include` parameter and `per_page`. */
  datatype MediaQuery = MediaQuery(endpoint: string, ids: seq<int>, perPage: int)

  /** What the loader produces: the lookup it issued (if any) and the resolved records, or
      `None` when the lookup's answer is unusable or a record without an `acf` block makes
      the attach step throw. */
  datatype Loaded = Loaded(lookup: Option<MediaQuery>, tours: Option<seq<Tour>>)

  const WP_V2: string := "/wp/v2"
  const MEDIA_PATH: string := "/wp/v2/media"
  const MEDIA_PAGE_SIZE: int := 100

  /** `data.map((tour) => tour.acf?.<slot>).filter((id) => typeof id === "number")` */
  function NumericIds(data: seq<Tour>, slot: Slot): (r: seq<int>)
    ensures forall n :: n in r <==> exists i :: 0 <= i < |data| && FieldAt(data[i], slot) == Num(n)
  {
    if |data| == 0 then []
    else
      var head := match FieldAt(data[0], slot) case Num(n) => [n] case _ => [];
      var tail := NumericIds(data[1..], slot);
      assert forall i :: 0 < i < |data| ==> data[i] == data[1..][i - 1];
      head + tail
  }

  /** Collecting ids over a concatenation of record lists concatenates the results. */
  lemma {:induction false} NumericIdsConcat(xs: seq<Tour>, ys: seq<Tour>, slot: Slot)
    ensures NumericIds(xs + ys, slot) == NumericIds(xs, slot) + NumericIds(ys, slot)
  {
    if |xs| == 0 {
      assert xs + ys == ys;
    } else {
      assert (xs + ys)[0] == xs[0];
      assert (xs + ys)[1..] == xs[1..] + ys;
      NumericIdsConcat(xs[1..], ys, slot);
    }
  }

  /** `visualsIds` / `audioIds`: each numeric id of the slot once, in first-occurrence order. */
  function SlotIds(data: seq<Tour>, slot: Slot): (r: seq<int>)
    ensures Distinct(r)
    ensures forall n :: n in r <==> exists i :: 0 <= i < |data| && FieldAt(data[i], slot) == Num(n)
  {
    Dedup(NumericIds(data, slot))
  }

  /** First-occurrence order: the ids found in a prefix of the records come first, in the
      same order, in the ids of all records. */
  lemma SlotIdsPrefix(data: seq<Tour>, k: nat, slot: Slot)
    requires k <= |data|
    ensures SlotIds(data[..k], slot) <= SlotIds(data, slot)
  {
    assert data == data[..k] + data[k..];
    NumericIdsConcat(data[..k], data[k..], slot);
    DedupPrefix(NumericIds(data[..k], slot), NumericIds(data[k..], slot));
  }

  /** `allMediaIds = [...new Set([...visualsIds, ...audioIds])]` */
  function AllMediaIds(data: seq<Tour>): (r: seq<int>)
    ensures Distinct(r)
    ensures forall n :: n in r <==> n in SlotIds(data, Visuals) || n in SlotIds(data, Audio)
  {
    Dedup(SlotIds(data, Visuals) + SlotIds(data, Audio))
  }

  /** `allMediaIds` is the deduplication of every numeric visuals id followed by every
      numeric audio id; it holds each such id exactly once and nothing else. */
  lemma AllMediaIdsSpec(data: seq<Tour>)
    ensures AllMediaIds(data) == Dedup(NumericIds(data, Visuals) + NumericIds(data, Audio))
    ensures Distinct(AllMediaIds(data))
    ensures forall n :: n in AllMediaIds(data) <==>
      exists i :: 0 <= i < |data| && (FieldAt(data[i], Visuals) == Num(n) || FieldAt(data[i], Audio) == Num(n))
  {
    DedupOfDedups(NumericIds(data, Visuals), NumericIds(data, Audio));
  }

  /** `API_BASE_URL.replace(/\/wp\/v2$/, "")`: one trailing `/wp/v2` is removed. */
  function ApiBase(base: string): (r: string)
    ensures EndsWith(base, WP_V2) ==> r + WP_V2 == base
    ensures !EndsWith(base, WP_V2) ==> r == base
  {
    if EndsWith(base, WP_V2) then base[..|base| - |WP_V2|] else base
  }

  /** Exactly one suffix is stripped: `b + "/wp/v2"` gives back `b`, whatever `b` ends with. */
  lemma ApiBaseStripsOnce(b: string)
    ensures ApiBase(b + WP_V2) == b
    ensures ApiBase(b + WP_V2 + WP_V2) == b + WP_V2
  {
    assert (b + WP_V2)[|b + WP_V2| - |WP_V2|..] == WP_V2;
    assert (b + WP_V2 + WP_V2)[|b + WP_V2 + WP_V2| - |WP_V2|..] == WP_V2;
    assert (b + WP_V2 + WP_V2)[..|b + WP_V2 + WP_V2| - |WP_V2|] == b + WP_V2;
  }

  /** The media endpoint stays under the configured base: a base ending in `/wp/v2` yields
      `<base>/media`, and any other base yields `<base>/wp/v2/media`. */
  lemma MediaEndpointUnderBase(base: string)
    ensures EndsWith(base, WP_V2) ==> ApiBase(base) + MEDIA_PATH == base + "/media"
    ensures !EndsWith(base, WP_V2) ==> ApiBase(base) + MEDIA_PATH == base + MEDIA_PATH
  {
    if EndsWith(base, WP_V2) {
      var r := ApiBase(base);
      assert MEDIA_PATH == WP_V2 + "/media";
      assert r + MEDIA_PATH == (r + WP_V2) + "/media";
    }
  }

  /** The lookup is issued exactly when there is at least one numeric id, and asks for all
      of them, 100 per page, at the stripped base. */
  function MediaLookupRequest(apiBaseUrl: string, data: seq<Tour>): (q: Option<MediaQuery>)
    ensures q.Some? <==> |AllMediaIds(data)| > 0
    ensures q.Some? ==> q.value.ids == AllMediaIds(data) && q.value.perPage == MEDIA_PAGE_SIZE
    ensures q.Some? ==> q.value.endpoint == ApiBase(apiBaseUrl) + MEDIA_PATH
  {
    var ids := AllMediaIds(data);
    if |ids| > 0 then Some(MediaQuery(ApiBase(apiBaseUrl) + MEDIA_PATH, ids, MEDIA_PAGE_SIZE)) else None
  }

  function EntryOf(m: MediaRecord): MediaEntry {
    MediaEntry(m.sourceUrl, m.mimeType)
  }

  /** `mediaArr.forEach((m) => { mediaMap[m.id] = {...} })`: the keys are the ids of the answer. */
  function MediaMap(arr: seq<MediaRecord>): (m: map<int, MediaEntry>)
    ensures forall id :: id in m <==> exists i :: 0 <= i < |arr| && arr[i].id == id
    decreases |arr|
  {
    if |arr| == 0 then map[]
    else
      var init := arr[..|arr| - 1];
      assert forall i :: 0 <= i < |arr| - 1 ==> arr[i] == init[i];
      MediaMap(init)[arr[|arr| - 1].id := EntryOf(arr[|arr| - 1])]
  }

  /** When the answer holds two records with the same id, the later one wins: the entry of
      an id is the one built from its last record. */
  lemma {:induction false} LaterRecordWins(arr: seq<MediaRecord>, i: nat)
    requires i < |arr|
    requires forall j :: i < j < |arr| ==> arr[j].id != arr[i].id
    ensures arr[i].id in MediaMap(arr)
    ensures MediaMap(arr)[arr[i].id] == EntryOf(arr[i])
    decreases |arr|
  {
    if i < |arr| - 1 {
      var init := arr[..|arr| - 1];
      assert forall j :: i < j < |init| ==> init[j] == arr[j];
      LaterRecordWins(init, i);
    }
  }

  /** Both `url` and `mime_type` are truthy. */
  predicate Complete(o: MediaRef) {
    Truthy(o.url) && Truthy(o.mimeType)
  }

  /** The resolution of one `visuals`/`audio` field against `mediaMap`. */
  function Resolve(f: Field, m: map<int, MediaEntry>): (r: Field)
    ensures r == Null || r.Obj?
    ensures f.Num? && f.n in m ==> r == Obj(MediaRef(m[f.n].url, m[f.n].mimeType, Some(f.n)))
    ensures f.Obj? && Complete(f.ref) ==> r == f
    ensures r != Null <==> (f.Num? && f.n in m) || (f.Obj? && Complete(f.ref))
  {
    match f
    case Num(n) => if n in m then Obj(MediaRef(m[n].url, m[n].mimeType, Some(n))) else Null
    case Obj(o) => if Complete(o) then f else Null
    case _ => Null
  }

  /** The resolved copy of one record; `None` when `tour.acf` is absent, where reading
      `tour.acf.visuals` throws. */
  function ResolveTour(t: Tour, m: map<int, MediaEntry>): (r: Option<Tour>)
    ensures r.Some? <==> t.acf.Some?
    ensures r.Some? ==> r.value.id == t.id && r.value.title == t.title && r.value.acf.Some?
  {
    match t.acf
    case None => None
    case Some(a) =>
      Some(t.(acf := Some(a.(visuals := Resolve(a.visuals, m), audio := Resolve(a.audio, m)))))
  }

  /** `data.map(...)`: every record resolved, in order, or `None` when one of them throws. */
  function AttachMedia(data: seq<Tour>, m: map<int, MediaEntry>): (r: Option<seq<Tour>>)
    ensures r.None? <==> exists i :: 0 <= i < |data| && data[i].acf.None?
    ensures r.Some? ==> |r.value| == |data|
    ensures r.Some? ==> forall i :: 0 <= i < |data| ==> Some(r.value[i]) == ResolveTour(data[i], m)
  {
    if |data| == 0 then Some([])
    else
      assert forall i :: 0 < i < |data| ==> data[i] == data[1..][i - 1];
      match (ResolveTour(data[0], m), AttachMedia(data[1..], m))
      case (Some(t), Some(ts)) => Some([t] + ts)
      case _ => None
  }

  /** Only `acf.visuals` and `acf.audio` change: every other part of every record, and the
      order of the records, is kept. */
  lemma AttachKeepsOtherFields(data: seq<Tour>, m: map<int, MediaEntry>, i: nat)
    requires AttachMedia(data, m).Some? && i < |data|
    ensures data[i].acf.Some?
    ensures AttachMedia(data, m).value[i]
      == data[i].(acf := Some(data[i].acf.value.(
           visuals := Resolve(data[i].acf.value.visuals, m),
           audio := Resolve(data[i].acf.value.audio, m))))
  {
  }

  /** Some record has a numeric `visuals` or `audio` field. */
  predicate HasNumericField(data: seq<Tour>) {
    exists i, slot :: 0 <= i < |data| && FieldAt(data[i], slot).Num?
  }

  /** `allMediaIds` is non-empty exactly when some record has a numeric media field. */
  lemma LookupIffNumeric(data: seq<Tour>)
    ensures |AllMediaIds(data)| > 0 <==> HasNumericField(data)
  {
    AllMediaIdsSpec(data);
    if HasNumericField(data) {
      var i, slot :| 0 <= i < |data| && FieldAt(data[i], slot).Num?;
      var n := FieldAt(data[i], slot).n;
      assert FieldAt(data[i], Visuals) == Num(n) || FieldAt(data[i], Audio) == Num(n);
      assert n in AllMediaIds(data);
    }
    if |AllMediaIds(data)| > 0 {
      var n := AllMediaIds(data)[0];
      assert n in AllMediaIds(data);
      var i :| 0 <= i < |data| && (FieldAt(data[i], Visuals) == Num(n) || FieldAt(data[i], Audio) == Num(n));
      if FieldAt(data[i], Visuals) == Num(n) {
        assert FieldAt(data[i], Visuals).Num?;
      } else {
        assert FieldAt(data[i], Audio).Num?;
      }
    }
  }

  /** The whole loader after the records arrived. The lookup is issued exactly when some
      record has a numeric media field. `answer` is what `mediaRes.json()` yields for it:
      the list of media records, or `None` when the request failed or its body is not a
      list (an error object, invalid JSON), where `mediaArr.forEach` throws and the whole
      load rejects. Otherwise `mediaMap` is built from the answer (empty when no lookup was
      issued) and attached to every record, which fails when a record lacks `acf`. */
  function LoadTours(apiBaseUrl: string, data: seq<Tour>, answer: Option<seq<MediaRecord>>): (r: Loaded)
    ensures r.lookup.Some? <==> HasNumericField(data)
    ensures r.lookup.Some? ==>
      r.lookup.value == MediaQuery(ApiBase(apiBaseUrl) + MEDIA_PATH, AllMediaIds(data), MEDIA_PAGE_SIZE)
    ensures r.tours.Some? <==>
      (!HasNumericField(data) || answer.Some?) && forall i :: 0 <= i < |data| ==> data[i].acf.Some?
    ensures r.tours.Some? ==> |r.tours.value| == |data|
  {
    LookupIffNumeric(data);
    var q := MediaLookupRequest(apiBaseUrl, data);
    if q.Some? && answer.None? then Loaded(q, None)
    else Loaded(q, AttachMedia(data, if q.Some? then MediaMap(answer.value) else map[]))
  }

  /** What the loader promises for one media field `f` that came out as `g`, stated over the
      lookup's answer `ans`: a number the answer holds becomes the object built from the LAST
      answer record with that id, carrying the id; a number the answer lacks becomes `null`;
      a complete object is kept and an incomplete one becomes `null`; any other value
      becomes `null`. */
  predicate ResolvedFrom(f: Field, g: Field, ans: seq<MediaRecord>) {
    match f
    case Num(n) =>
      if exists j :: 0 <= j < |ans| && ans[j].id == n then
        exists j :: 0 <= j < |ans| && ans[j].id == n && (forall k :: j < k < |ans| ==> ans[k].id != n)
          && g == Obj(MediaRef(ans[j].sourceUrl, ans[j].mimeType, Some(n)))
      else g == Null
    case Obj(o) => g == (if Complete(o) then f else Null)
    case _ => g == Null
  }

  /** The position of the last record of `arr` with id `n`. */
  lemma LastRecord(arr: seq<MediaRecord>, n: int) returns (j: nat)
    requires exists k :: 0 <= k < |arr| && arr[k].id == n
    ensures j < |arr| && arr[j].id == n
    ensures forall k :: j < k < |arr| ==> arr[k].id != n
    decreases |arr|
  {
    if arr[|arr| - 1].id == n {
      j := |arr| - 1;
    } else {
      var init := arr[..|arr| - 1];
      var k :| 0 <= k < |arr| && arr[k].id == n;
      assert init[k].id == n;
      j := LastRecord(init, n);
    }
  }

  /** The loader end to end, for field `slot` of record `i` of a successful load: the
      field came out as `ResolvedFrom` says, a numeric field implies the answer arrived, and
      nothing else of the record changed. */
  lemma LoadedField(apiBaseUrl: string, data: seq<Tour>, answer: Option<seq<MediaRecord>>, i: nat, slot: Slot)
    requires forall j :: 0 <= j < |data| ==> data[j].acf.Some?
    requires !HasNumericField(data) || answer.Some?
    requires i < |data|
    ensures LoadTours(apiBaseUrl, data, answer).tours.Some?
    ensures FieldAt(data[i], slot).Num? ==> answer.Some?
    ensures var out := LoadTours(apiBaseUrl, data, answer).tours.value[i];
      && ResolvedFrom(FieldAt(data[i], slot), FieldAt(out, slot), answer.GetOr([]))
      && out == data[i].(acf := Some(data[i].acf.value.(visuals := FieldAt(out, Visuals), audio := FieldAt(out, Audio))))
  {
    LookupIffNumeric(data);
    var q := MediaLookupRequest(apiBaseUrl, data);
    var m := if q.Some? then MediaMap(answer.value) else map[];
    assert LoadTours(apiBaseUrl, data, answer).tours == AttachMedia(data, m);
    AttachKeepsOtherFields(data, m, i);
    var f := FieldAt(data[i], slot);
    if f.Num? {
      assert HasNumericField(data);
      var ans := answer.value;
      if exists j :: 0 <= j < |ans| && ans[j].id == f.n {
        var j := LastRecord(ans, f.n);
        LaterRecordWins(ans, j);
      } else {
        assert f.n !in MediaMap(ans);
      }
    }
  }
}
