/** The projection at the end of `semantic_search` (main.py): every object the
    vector store returns becomes a six-field hit record. */
module Hits {
  import opened Wrappers

  /** The properties of one returned object, keyed by property name. Only the
      properties the object actually has are present; a present value is held
      as the text its Python `str()` gives. */
  type Properties = map<string, string>

  /** A hit: the dictionary `{'text', 'source_url', 'title', 'page', 'date',
      'doc_type'}`, each value possibly `None`. */
  datatype Hit = Hit(
    text: Option<string>,
    sourceUrl: Option<string>,
    title: Option<string>,
    page: Option<string>,
    date: Option<string>,
    docType: Option<string>)

  /** The keys every hit has, in the order the source writes them. */
  const HitKeys: seq<string> := ["text", "source_url", "title", "page", "date", "doc_type"]

  /** The properties requested from the store: the hit keys and two more that are never used. */
  const ReturnProperties: seq<string> := HitKeys + ["gov_order", "court_level"]

  /** `props.get(key)`. */
  function Get(props: Properties, key: string): Option<string>
  {
    if key in props then Some(props[key]) else None
  }

  /** `hit.get(key)` on the dictionary a hit stands for: `None` for a key it does not have. */
  function Field(h: Hit, key: string): Option<string>
  {
    match key
    case "text" => h.text
    case "source_url" => h.sourceUrl
    case "title" => h.title
    case "page" => h.page
    case "date" => h.date
    case "doc_type" => h.docType
    case _ => None
  }

  /** One object's hit (main.py:59-66): each of the six keys reads the object's
      property of that name, missing ones become `None`, and every other
      property, `gov_order` and `court_level` included, is dropped. */
  function Project(props: Properties): (h: Hit)
    ensures forall key :: Field(h, key) == if key in HitKeys then Get(props, key) else None
  {
    Hit(Get(props, "text"), Get(props, "source_url"), Get(props, "title"),
        Get(props, "page"), Get(props, "date"), Get(props, "doc_type"))
  }

  /** The properties a hit carries: its present fields, under their keys. */
  function AsProperties(h: Hit): (props: Properties)
    ensures forall key :: key in props ==> key in HitKeys
  {
    map key | key in HitKeys && Field(h, key).Some? :: Field(h, key).value
  }

  /** Projecting the properties of a hit gives the hit back. */
  lemma ProjectAsProperties(h: Hit)
    ensures Project(AsProperties(h)) == h
  {
  }

  /** A hit keeps exactly the object's properties named by the six keys. */
  lemma AsPropertiesProject(props: Properties)
    ensures AsProperties(Project(props)) == map key | key in props && key in HitKeys :: props[key]
  {
  }

  /** Two objects that agree on the six keys give the same hit, whatever else they carry. */
  lemma ProjectIgnoresOtherProperties(p: Properties, q: Properties)
    requires forall key :: key in HitKeys ==> Get(p, key) == Get(q, key)
    ensures Project(p) == Project(q)
  {
  }

  /** The hit list of a search result: one hit per object, in order. */
  function ProjectHits(objects: seq<Properties>): (hits: seq<Hit>)
    ensures |hits| == |objects|
    ensures forall k :: 0 <= k < |objects| ==> hits[k] == Project(objects[k])
  {
    if objects == [] then [] else [Project(objects[0])] + ProjectHits(objects[1..])
  }

  /** The loop at main.py:57-66 that appends one hit per returned object. */
  method CollectHits(objects: seq<Properties>) returns (hits: seq<Hit>)
    ensures hits == ProjectHits(objects)
  {
    hits := [];
    for k := 0 to |objects|
      invariant |hits| == k
      invariant forall j :: 0 <= j < k ==> hits[j] == Project(objects[j])
    {
      hits := hits + [Project(objects[k])];
    }
  }
}
