/** The tour records the WordPress REST backend returns, as far as the application reads them. */
module TourData {
  import opened Values

  /** A media object: `{url, mime_type}`, with the `id` the resolver attaches on a map hit. */
  datatype MediaRef = MediaRef(url: Option<string>, mimeType: Option<string>, id: Option<int>)

  /** The JavaScript value of an `acf.visuals` or `acf.audio` field: `undefined`, `null`, a
      number (a media id), an object, or anything else (a string, a boolean, ...). */
  datatype Field = Missing | Null | Num(n: int) | Obj(ref: MediaRef) | Other

  /** The custom-fields block of a tour record. */
  datatype Acf = Acf(
    sectie: Option<string>,
    naam: Option<string>,
    visuals: Field,
    audio: Field,
    functie: Option<string>,
    beschrijving: Option<string>)

  /** A tour record: its id, its rendered title and its (possibly absent) `acf` block. */
  datatype Tour = Tour(id: int, title: string, acf: Option<Acf>)

  /** Which of the two media fields of a record is meant. */
  datatype Slot = Visuals | Audio

  /** `tour.acf?.visuals` / `tour.acf?.audio`: `undefined` when the record has no `acf`. */
  function FieldAt(t: Tour, slot: Slot): (f: Field)
    ensures t.acf.None? ==> f == Missing
  {
    match t.acf
    case None => Missing
    case Some(a) => if slot == Visuals then a.visuals else a.audio
  }
}
