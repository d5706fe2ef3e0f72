/** `clean_doc`: a document fetched from the store made JSON-ready by replacing every ObjectId,
    at any depth, with its text. */
module MongoCleaner {
  import opened UserModels

  /** A BSON value as the driver returns it; a dict is its entries in insertion order. */
  datatype Doc =
    | Oid(oid: ObjectId)
    | Str(s: string)
    | Num(n: int)
    | Bool(b: bool)
    | Null
    | List(items: seq<Doc>)
    | Dict(entries: seq<Entry>)

  datatype Entry = Entry(key: string, value: Doc)

  /** No ObjectId anywhere inside the value. */
  predicate NoOid(d: Doc) {
    match d
    case Oid(_) => false
    case List(items) => forall i :: 0 <= i < |items| ==> NoOid(items[i])
    case Dict(entries) => forall i :: 0 <= i < |entries| ==> NoOid(entries[i].value)
    case _ => true
  }

  function Keys(entries: seq<Entry>): (r: seq<string>)
    ensures |r| == |entries| && forall i :: 0 <= i < |entries| ==> r[i] == entries[i].key
  {
    seq(|entries|, i requires 0 <= i < |entries| => entries[i].key)
  }

  /** `clean_doc` */
  function CleanDoc(d: Doc): (r: Doc)
    ensures NoOid(r)
    ensures d.Oid? ==> r == Str(d.oid)
    ensures d.List? ==> r.List? && |r.items| == |d.items|
    ensures d.List? ==> forall i :: 0 <= i < |d.items| ==> r.items[i] == CleanDoc(d.items[i])
    ensures d.Dict? ==> r.Dict? && Keys(r.entries) == Keys(d.entries)
    ensures !d.Oid? && !d.List? && !d.Dict? ==> r == d
    decreases d
  {
    match d
    case List(items) => List(seq(|items|, i requires 0 <= i < |items| => CleanDoc(items[i])))
    case Oid(o) => Str(o)
    case Dict(entries) => Dict(seq(|entries|, i requires 0 <= i < |entries| => CleanEntry(entries[i], d)))
    case _ => d
  }

  /** One entry of the dict branch: an ObjectId value becomes its text, anything else is
      cleaned recursively. */
  function CleanEntry(e: Entry, ghost parent: Doc): (r: Entry)
    requires e < parent
    ensures r.key == e.key && NoOid(r.value)
    decreases parent, 0
  {
    if e.value.Oid? then Entry(e.key, Str(e.value.oid)) else Entry(e.key, CleanDoc(e.value))
  }

  /** `clean_doc` as written: the list comprehension, and the loop that fills a new dict. */
  method Clean(d: Doc) returns (r: Doc)
    ensures r == CleanDoc(d)
    decreases d
  {
    match d {
      case List(items) =>
        var cleaned := [];
        for i := 0 to |items|
          invariant cleaned == seq(i, j requires 0 <= j < i => CleanDoc(items[j]))
        {
          var x := Clean(items[i]);
          cleaned := cleaned + [x];
        }
        return List(cleaned);
      case Oid(o) =>
        return Str(o);
      case Dict(entries) =>
        var newDict := [];
        for i := 0 to |entries|
          invariant newDict == seq(i, j requires 0 <= j < i => CleanEntry(entries[j], d))
        {
          var e := entries[i];
          if e.value.Oid? {
            newDict := newDict + [Entry(e.key, Str(e.value.oid))];
          } else {
            var v := Clean(e.value);
            newDict := newDict + [Entry(e.key, v)];
          }
        }
        return Dict(newDict);
      case _ =>
        return d;
    }
  }

  /** A value with no ObjectId is left as it is. */
  lemma {:induction false} CleanKeepsClean(d: Doc)
    requires NoOid(d)
    ensures CleanDoc(d) == d
    decreases d
  {
    match d {
      case List(items) =>
        forall i | 0 <= i < |items|
          ensures CleanDoc(items[i]) == items[i]
        {
          CleanKeepsClean(items[i]);
        }
        assert CleanDoc(d).items == items;
      case Dict(entries) =>
        forall i | 0 <= i < |entries|
          ensures CleanEntry(entries[i], d) == entries[i]
        {
          assert entries[i] < d;
          CleanKeepsClean(entries[i].value);
        }
        assert CleanDoc(d).entries == entries;
      case _ =>
    }
  }

  /** Cleaning twice is cleaning once. */
  lemma CleanIdempotent(d: Doc)
    ensures CleanDoc(CleanDoc(d)) == CleanDoc(d)
  {
    CleanKeepsClean(CleanDoc(d));
  }

  /** The special case of the dict branch changes nothing: it is the same as cleaning every
      value. */
  lemma DictBranchIsMap(entries: seq<Entry>)
    ensures CleanDoc(Dict(entries)).entries
         == seq(|entries|, i requires 0 <= i < |entries| => Entry(entries[i].key, CleanDoc(entries[i].value)))
  {
  }
}
