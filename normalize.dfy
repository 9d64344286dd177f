/**
 * `DiffusersModel.convert_lists_to_tuples`: a deep copy of the request
 * payload in which every list met through dicts and lists becomes a tuple
 * of the same elements in the same order. Dicts are rebuilt with the same
 * keys in the same order; everything else, tuples included, is returned
 * as it is, without looking inside.
 */
module Normalize {
  import opened Wrappers
  import opened Values

  function ConvertListsToTuples(v: Value): (r: Value)
    ensures v.List? ==> r.Tuple? && |r.items| == |v.items|
    ensures v.Dict? ==> r.Dict? && Keys(r.entries) == Keys(v.entries)
    ensures v.Scalar? || v.Tuple? ==> r == v
  {
    match v
    case Dict(entries) => Dict(ConvertEntries(entries))
    case List(items) => Tuple(ConvertItems(items))
    case _ => v
  }

  /** The generator `tuple(convert(x) for x in data)`, element by element. */
  function ConvertItems(items: seq<Value>): (r: seq<Value>)
    ensures |r| == |items|
    ensures forall i :: 0 <= i < |items| ==> r[i] == ConvertListsToTuples(items[i])
  {
    if items == [] then [] else [ConvertListsToTuples(items[0])] + ConvertItems(items[1..])
  }

  /** The comprehension `{k: convert(v) for k, v in data.items()}`, entry by entry. */
  function ConvertEntries(entries: seq<Entry>): (r: seq<Entry>)
    ensures |r| == |entries|
    ensures Keys(r) == Keys(entries)
    ensures forall i :: 0 <= i < |entries| ==>
      r[i] == Entry(entries[i].key, ConvertListsToTuples(entries[i].val))
  {
    if entries == [] then []
    else [Entry(entries[0].key, ConvertListsToTuples(entries[0].val))] + ConvertEntries(entries[1..])
  }

  /** Normalising an already normalised payload changes nothing. */
  lemma {:induction false} ConvertIdempotent(v: Value)
    ensures ConvertListsToTuples(ConvertListsToTuples(v)) == ConvertListsToTuples(v)
  {
    match v
    case Dict(entries) =>
      var once := ConvertEntries(entries);
      forall i | 0 <= i < |entries|
        ensures ConvertEntries(once)[i] == once[i]
      {
        ConvertIdempotent(entries[i].val);
      }
      assert ConvertEntries(once) == once;
    case List(items) =>
    case Tuple(_) =>
    case Scalar(_) =>
  }

  /**
   * The normal form holds no list at any depth exactly when every tuple of
   * the input is already free of lists: tuples are not entered, so a list
   * inside a tuple survives.
   */
  lemma {:induction false} NoListIff(v: Value)
    ensures NoList(ConvertListsToTuples(v)) <==> Normalisable(v)
  {
    match v
    case Dict(entries) =>
      forall i | 0 <= i < |entries| {
        NoListIff(entries[i].val);
      }
    case List(items) =>
      forall i | 0 <= i < |items| {
        NoListIff(items[i]);
      }
    case Tuple(_) =>
    case Scalar(_) =>
  }

  /** A tuple holding a list keeps that list: the converse direction above is needed. */
  lemma ListInsideTupleSurvives()
    ensures !NoList(ConvertListsToTuples(Tuple([List([])])))
  {
    assert !NoList(Tuple([List([])]).items[0]);
  }

  lemma {:induction false} TupleFreeIsNormalisable(v: Value)
    requires TupleFree(v)
    ensures Normalisable(v)
  {
    match v
    case Dict(entries) =>
      forall i | 0 <= i < |entries| {
        TupleFreeIsNormalisable(entries[i].val);
      }
    case List(items) =>
      forall i | 0 <= i < |items| {
        TupleFreeIsNormalisable(items[i]);
      }
    case Scalar(_) =>
  }

  /** A JSON-decoded payload holds no tuples, so its normal form holds no list at all. */
  lemma NoListAfterJsonPayload(v: Value)
    requires TupleFree(v)
    ensures NoList(ConvertListsToTuples(v))
  {
    TupleFreeIsNormalisable(v);
    NoListIff(v);
  }

  /** A value without lists is its own normal form. */
  lemma {:induction false} ListFreeUnchanged(v: Value)
    requires NoList(v)
    ensures ConvertListsToTuples(v) == v
  {
    match v
    case Dict(entries) =>
      forall i | 0 <= i < |entries|
        ensures ConvertEntries(entries)[i] == entries[i]
      {
        ListFreeUnchanged(entries[i].val);
      }
      assert ConvertEntries(entries) == entries;
    case Tuple(_) =>
    case Scalar(_) =>
  }

  /** Keys stay distinct, so the result is a well-formed dict tree again. */
  lemma {:induction false} ConvertKeepsWellFormed(v: Value)
    requires WellFormed(v)
    ensures WellFormed(ConvertListsToTuples(v))
  {
    match v
    case Dict(entries) =>
      forall i | 0 <= i < |entries| {
        ConvertKeepsWellFormed(entries[i].val);
      }
    case List(items) =>
      forall i | 0 <= i < |items| {
        ConvertKeepsWellFormed(items[i]);
      }
    case Tuple(_) =>
    case Scalar(_) =>
  }

  /** {"prompt": "x", "negative_prompt_embeds": [[1, 2], [3, 4]]}: both list levels become tuples. */
  lemma NestedListsBecomeTuples()
    ensures ConvertListsToTuples(Dict([
        Entry("prompt", Scalar(Str("x"))),
        Entry("negative_prompt_embeds", List([List([Scalar(Int(1)), Scalar(Int(2))]),
                                              List([Scalar(Int(3)), Scalar(Int(4))])]))]))
      == Dict([
        Entry("prompt", Scalar(Str("x"))),
        Entry("negative_prompt_embeds", Tuple([Tuple([Scalar(Int(1)), Scalar(Int(2))]),
                                               Tuple([Scalar(Int(3)), Scalar(Int(4))])]))])
  {
    var inner := List([List([Scalar(Int(1)), Scalar(Int(2))]), List([Scalar(Int(3)), Scalar(Int(4))])]);
    assert ConvertListsToTuples(inner.items[0]) == Tuple([Scalar(Int(1)), Scalar(Int(2))]);
    assert ConvertListsToTuples(inner.items[1]) == Tuple([Scalar(Int(3)), Scalar(Int(4))]);
    assert ConvertItems(inner.items) ==
      [Tuple([Scalar(Int(1)), Scalar(Int(2))]), Tuple([Scalar(Int(3)), Scalar(Int(4))])];
    var entries := [Entry("prompt", Scalar(Str("x"))), Entry("negative_prompt_embeds", inner)];
    assert ConvertEntries(entries) ==
      [Entry("prompt", Scalar(Str("x"))), Entry("negative_prompt_embeds", ConvertListsToTuples(inner))];
  }

  /** Looking a key up after normalising gives the normal form of what was stored under it. */
  lemma {:induction false} LookupAfterConvert(entries: seq<Entry>, key: string)
    ensures Lookup(ConvertEntries(entries), key) ==
      match Lookup(entries, key)
      case None => None
      case Some(x) => Some(ConvertListsToTuples(x))
  {
    if entries != [] {
      assert ConvertEntries(entries)[1..] == ConvertEntries(entries[1..]);
      LookupAfterConvert(entries[1..], key);
    }
  }
}
