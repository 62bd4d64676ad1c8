/** Grouping of tour records into the three sections and the play queue built from them
    (`AudioTourList.jsx`: the `grouped` object, its sort, and the queue of `handleTourStart`). */
module TourQueue {
  import opened Values
  import opened Seqs
  import opened TourData

  /** The three section keys, in `SECTION_ORDER`. */
  datatype SectionKey = OnsVerhaal | OverHetKantoor | OnzeFilosofie

  const SECTION_ORDER: seq<SectionKey> := [OnsVerhaal, OverHetKantoor, OnzeFilosofie]

  /** The key as it appears in `acf.sectie`. */
  function KeyName(k: SectionKey): string {
    match k
    case OnsVerhaal => "ons_verhaal"
    case OverHetKantoor => "over_het_kantoor"
    case OnzeFilosofie => "onze_filosofie"
  }

  /** `SECTION_LABELS[k]` */
  function Label(k: SectionKey): string {
    match k
    case OnsVerhaal => "Ons verhaal"
    case OverHetKantoor => "Over het Kantoor"
    case OnzeFilosofie => "Onze filosofie"
  }

  /** `grouped[tour.acf?.sectie]` is an array exactly for the three key names. */
  function SectionOf(t: Tour): (r: Option<SectionKey>)
    ensures r.Some? <==> (t.acf.Some? && t.acf.value.sectie.Some? &&
      t.acf.value.sectie.value in {"ons_verhaal", "over_het_kantoor", "onze_filosofie"})
    ensures r.Some? ==> t.acf.value.sectie == Some(KeyName(r.value))
  {
    match t.acf
    case None => None
    case Some(a) =>
      match a.sectie
      case None => None
      case Some(s) =>
        if s == KeyName(OnsVerhaal) then Some(OnsVerhaal)
        else if s == KeyName(OverHetKantoor) then Some(OverHetKantoor)
        else if s == KeyName(OnzeFilosofie) then Some(OnzeFilosofie)
        else None
  }

  /** A card item: what `grouped[sectie].push(...)` stores for a record. */
  datatype Item = Item(
    id: int,
    name: string,
    visuals: Field,
    audio: Option<string>,
    section: string,
    functie: Option<string>,
    beschrijving: Option<string>)

  /** `tour.acf.audio?.url` */
  function AudioUrl(f: Field): Option<string> {
    match f
    case Obj(o) => o.url
    case _ => None
  }

  /** The item built for a record of section `k`. */
  function ItemOf(t: Tour, k: SectionKey): (it: Item)
    requires t.acf.Some?
    ensures it.id == t.id && it.section == Label(k)
    ensures it.name == (if Truthy(t.acf.value.naam) then t.acf.value.naam.value else t.title)
    ensures t.acf.value.audio.Obj? ==> it.audio == t.acf.value.audio.ref.url
    ensures !t.acf.value.audio.Obj? ==> it.audio.None?
    ensures it.visuals == t.acf.value.visuals
    ensures it.functie == t.acf.value.functie && it.beschrijving == t.acf.value.beschrijving
  {
    var a := t.acf.value;
    Item(t.id, if Truthy(a.naam) then a.naam.value else t.title, a.visuals, AudioUrl(a.audio),
         Label(k), a.functie, a.beschrijving)
  }

  /** `item.audio` is truthy. */
  predicate HasAudio(it: Item) {
    Truthy(it.audio)
  }

  /** The items of section `k`, in record order (the `forEach` pushes): at most one per
      record, each labelled with the section's title. */
  function Collect(tours: seq<Tour>, k: SectionKey): (r: seq<Item>)
    ensures |r| <= |tours|
    ensures forall j :: 0 <= j < |r| ==> r[j].section == Label(k)
  {
    if |tours| == 0 then [] else Own(tours[0], k) + Collect(tours[1..], k)
  }

  /** What one record contributes to section `k`: its item, or nothing. */
  function Own(t: Tour, k: SectionKey): seq<Item> {
    if SectionOf(t) == Some(k) then [ItemOf(t, k)] else []
  }

  /** A section holds exactly the items of the records whose `sectie` names it. */
  lemma {:induction false} CollectMembers(tours: seq<Tour>, k: SectionKey, x: Item)
    ensures x in Collect(tours, k) <==>
      exists i :: 0 <= i < |tours| && SectionOf(tours[i]) == Some(k) && x == ItemOf(tours[i], k)
  {
    if |tours| > 0 {
      CollectMembers(tours[1..], k, x);
      assert forall i :: 0 < i < |tours| ==> tours[i] == tours[1..][i - 1];
    }
  }

  /** Collecting keeps record order: collecting over a concatenation concatenates. */
  lemma {:induction false} CollectConcat(xs: seq<Tour>, ys: seq<Tour>, k: SectionKey)
    ensures Collect(xs + ys, k) == Collect(xs, k) + Collect(ys, k)
  {
    if |xs| == 0 {
      assert xs + ys == ys;
    } else {
      assert (xs + ys)[0] == xs[0];
      assert (xs + ys)[1..] == xs[1..] + ys;
      CollectConcat(xs[1..], ys, k);
    }
  }

  /** The `localeCompare` collation, taken as an abstract relation on names: a total
      preorder (names that compare equal, such as different case under base sensitivity,
      are allowed). */
  ghost predicate TotalPreorder(leq: (string, string) -> bool) {
    (forall a, b :: leq(a, b) || leq(b, a)) &&
    (forall a, b, c :: leq(a, b) && leq(b, c) ==> leq(a, c))
  }

  /** Items ordered by name. */
  ghost predicate SortedByName(leq: (string, string) -> bool, xs: seq<Item>) {
    forall i, j :: 0 <= i < j < |xs| ==> leq(xs[i].name, xs[j].name)
  }

  /** Insert `x` into a sorted list after every item whose name is not strictly above its
      own, which keeps items that compare equal in their original order. */
  function Insert(leq: (string, string) -> bool, x: Item, xs: seq<Item>): (r: seq<Item>)
    requires TotalPreorder(leq)
    requires SortedByName(leq, xs)
    ensures SortedByName(leq, r)
    ensures multiset(r) == multiset(xs) + multiset{x}
    ensures forall j :: 0 <= j < |r| ==> r[j] == x || r[j] in xs
  {
    if |xs| == 0 then [x]
    else if leq(x.name, xs[0].name) && !leq(xs[0].name, x.name) then
      [x] + xs
    else
      var rest := Insert(leq, x, xs[1..]);
      assert xs == [xs[0]] + xs[1..];
      InsertHeadBound(leq, xs, x, rest);
      [xs[0]] + rest
  }

  /** The head of a sorted list that is not above `x` stays below everything once `x` is
      inserted into the tail. */
  lemma InsertHeadBound(leq: (string, string) -> bool, xs: seq<Item>, x: Item, rest: seq<Item>)
    requires TotalPreorder(leq)
    requires |xs| > 0 && SortedByName(leq, xs) && SortedByName(leq, rest)
    requires leq(xs[0].name, x.name)
    requires forall j :: 0 <= j < |rest| ==> rest[j] == x || rest[j] in xs[1..]
    ensures SortedByName(leq, [xs[0]] + rest)
  {
    forall j | 0 <= j < |rest|
      ensures leq(xs[0].name, rest[j].name)
    {
      if rest[j] != x {
        var k :| 0 <= k < |xs[1..]| && xs[1..][k] == rest[j];
        assert xs[k + 1] == rest[j];
      }
    }
  }

  /** `grouped.ons_verhaal.sort(...)`: a stable insertion sort by name. */
  function SortByName(leq: (string, string) -> bool, xs: seq<Item>): (r: seq<Item>)
    requires TotalPreorder(leq)
    ensures SortedByName(leq, r)
    ensures multiset(r) == multiset(xs)
    decreases |xs|
  {
    if |xs| == 0 then []
    else
      assert xs == xs[..|xs| - 1] + [xs[|xs| - 1]];
      Insert(leq, xs[|xs| - 1], SortByName(leq, xs[..|xs| - 1]))
  }

  /** The `grouped` object after sorting. */
  datatype Grouped = Grouped(onsVerhaal: seq<Item>, overHetKantoor: seq<Item>, onzeFilosofie: seq<Item>)

  function Section(g: Grouped, k: SectionKey): seq<Item> {
    match k
    case OnsVerhaal => g.onsVerhaal
    case OverHetKantoor => g.overHetKantoor
    case OnzeFilosofie => g.onzeFilosofie
  }

  /** Group the records by section; only `ons_verhaal` is sorted by name, the other two
      sections keep the order of the records. */
  function GroupTours(leq: (string, string) -> bool, tours: seq<Tour>): (g: Grouped)
    requires TotalPreorder(leq)
    ensures SortedByName(leq, g.onsVerhaal)
    ensures multiset(g.onsVerhaal) == multiset(Collect(tours, OnsVerhaal))
    ensures g.overHetKantoor == Collect(tours, OverHetKantoor)
    ensures g.onzeFilosofie == Collect(tours, OnzeFilosofie)
  {
    Grouped(SortByName(leq, Collect(tours, OnsVerhaal)),
            Collect(tours, OverHetKantoor),
            Collect(tours, OnzeFilosofie))
  }

  /** `SECTION_ORDER.flatMap((key) => grouped[key]).filter((item) => item.audio)` */
  function BuildQueue(g: Grouped): (q: seq<Item>)
    ensures forall x :: x in q ==> HasAudio(x)
  {
    Filter(HasAudio, Section(g, SECTION_ORDER[0]) + Section(g, SECTION_ORDER[1]) + Section(g, SECTION_ORDER[2]))
  }

  /** The queue is the audio-bearing items of each section, the sections concatenated in
      `SECTION_ORDER` with the order inside each section kept. */
  lemma QueueBySection(g: Grouped)
    ensures BuildQueue(g) == Filter(HasAudio, g.onsVerhaal) + Filter(HasAudio, g.overHetKantoor)
                             + Filter(HasAudio, g.onzeFilosofie)
  {
    FilterConcat(HasAudio, g.onsVerhaal + g.overHetKantoor, g.onzeFilosofie);
    FilterConcat(HasAudio, g.onsVerhaal, g.overHetKantoor);
  }

  /** An item is queued exactly when some record of one of the three sections produces it
      and it has audio; records of any other section never reach the queue. */
  lemma QueueMembers(leq: (string, string) -> bool, tours: seq<Tour>, x: Item)
    requires TotalPreorder(leq)
    ensures x in BuildQueue(GroupTours(leq, tours)) <==> HasAudio(x) && ProducedBy(tours, x)
  {
    QueueMembersOfGrouping(GroupTours(leq, tours), tours, x);
  }

  /** Some record of one of the three sections produces `x`. */
  ghost predicate ProducedBy(tours: seq<Tour>, x: Item) {
    exists i, k :: 0 <= i < |tours| && SectionOf(tours[i]) == Some(k) && x == ItemOf(tours[i], k)
  }

  /** A record of one of the three sections produces `x` exactly when one of the three
      collected sections holds it. */
  lemma ProducedBySections(tours: seq<Tour>, x: Item)
    ensures ProducedBy(tours, x) <==>
      x in Collect(tours, OnsVerhaal) || x in Collect(tours, OverHetKantoor) || x in Collect(tours, OnzeFilosofie)
  {
    CollectMembers(tours, OnsVerhaal, x);
    CollectMembers(tours, OverHetKantoor, x);
    CollectMembers(tours, OnzeFilosofie, x);
    if ProducedBy(tours, x) {
      var i, k :| 0 <= i < |tours| && SectionOf(tours[i]) == Some(k) && x == ItemOf(tours[i], k);
      CollectMembers(tours, k, x);
    }
    if x in Collect(tours, OnsVerhaal) || x in Collect(tours, OverHetKantoor) || x in Collect(tours, OnzeFilosofie) {
      var k := if x in Collect(tours, OnsVerhaal) then OnsVerhaal
               else if x in Collect(tours, OverHetKantoor) then OverHetKantoor else OnzeFilosofie;
      var i :| 0 <= i < |tours| && SectionOf(tours[i]) == Some(k) && x == ItemOf(tours[i], k);
      assert ProducedBy(tours, x);
    }
  }

  /** `QueueMembers` for any grouping whose sections hold the collected items. */
  lemma QueueMembersOfGrouping(g: Grouped, tours: seq<Tour>, x: Item)
    requires multiset(g.onsVerhaal) == multiset(Collect(tours, OnsVerhaal))
    requires g.overHetKantoor == Collect(tours, OverHetKantoor)
    requires g.onzeFilosofie == Collect(tours, OnzeFilosofie)
    ensures x in BuildQueue(g) <==> HasAudio(x) && ProducedBy(tours, x)
  {
    QueueBySection(g);
    assert x in g.onsVerhaal <==> x in Collect(tours, OnsVerhaal) by {
      assert x in g.onsVerhaal <==> x in multiset(g.onsVerhaal);
      assert x in Collect(tours, OnsVerhaal) <==> x in multiset(Collect(tours, OnsVerhaal));
    }
    var q := BuildQueue(g);
    assert x in q <==> HasAudio(x) && (x in Collect(tours, OnsVerhaal) || x in Collect(tours, OverHetKantoor)
                                      || x in Collect(tours, OnzeFilosofie));
    ProducedBySections(tours, x);
  }

  /** An item without audio in the first section and one audio item in each of the next
      two sections give the queue `[y, z]`. */
  lemma QueueExample(x: Item, y: Item, z: Item)
    requires !HasAudio(x) && HasAudio(y) && HasAudio(z)
    ensures BuildQueue(Grouped([x], [y], [z])) == [y, z]
  {
    var g := Grouped([x], [y], [z]);
    assert Section(g, SECTION_ORDER[0]) + Section(g, SECTION_ORDER[1]) + Section(g, SECTION_ORDER[2]) == [x, y, z];
    assert [x, y, z][1..] == [y, z];
    assert [y, z][1..] == [z];
    assert Filter(HasAudio, [z]) == [z];
    assert Filter(HasAudio, [y, z]) == [y, z];
  }
}
