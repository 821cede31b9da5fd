/** Query strings as lists of `&key=value` parameters, with no percent-encoding, and the
    abstract `request` step that a built URL is handed to. */
module Query {
  import opened Wrappers
  import opened Decimal
  import opened Strings

  datatype Param = Param(key: string, value: string)

  function Pair(p: Param): string {
    p.key + "=" + p.value
  }

  /** The parameters written one after another, each as `&key=value`, verbatim. */
  function Encode(ps: seq<Param>): (s: string)
    ensures |s| >= 2 * |ps|
    ensures s == "" <==> |ps| == 0
    ensures |ps| > 0 ==> s[0] == '&'
  {
    if |ps| == 0 then "" else Encode(ps[..|ps| - 1]) + "&" + Pair(ps[|ps| - 1])
  }

  /** A parameter that survives being written verbatim: its key has no `=` or `&`, its value no `&`. */
  predicate Wellformed(p: Param) {
    '=' !in p.key && '&' !in p.key && '&' !in p.value
  }

  predicate AllWellformed(ps: seq<Param>) {
    forall i :: 0 <= i < |ps| ==> Wellformed(ps[i])
  }

  /** `key=value` cut at its first `=`; text without `=` is a key with an empty value. */
  function ParsePair(s: string): Param
  {
    if |s| == 0 then Param("", "")
    else if s[0] == '=' then Param("", s[1..])
    else var p := ParsePair(s[1..]); Param([s[0]] + p.key, p.value)
  }

  function ParsePairs(parts: seq<string>): seq<Param>
  {
    if |parts| == 0 then [] else ParsePairs(parts[..|parts| - 1]) + [ParsePair(parts[|parts| - 1])]
  }

  /** The parameters of a query string: everything after each `&`, read as `key=value`. */
  function Decode(s: string): seq<Param>
  {
    ParsePairs(Split(s, '&')[1..])
  }

  /** The keys in order. */
  function Keys(ps: seq<Param>): (ks: seq<string>)
    ensures |ks| == |ps|
  {
    seq(|ps|, i requires 0 <= i < |ps| => ps[i].key)
  }

  /** The value of the first parameter named `key`, if any. */
  function Lookup(ps: seq<Param>, key: string): Option<string>
  {
    if |ps| == 0 then None
    else if ps[0].key == key then Some(ps[0].value)
    else Lookup(ps[1..], key)
  }

  /** `xs` occurs in `ys` in the same relative order, each element at its own position of `ys`. */
  predicate Subsequence(xs: seq<string>, ys: seq<string>)
    decreases |ys|
  {
    || |xs| == 0
    || (&& |ys| > 0
        && ((xs[0] == ys[0] && Subsequence(xs[1..], ys[1..])) || Subsequence(xs, ys[1..])))
  }

  /** A numeric field read back from its parameter: absent reads as 0. */
  function NumOf(v: Option<string>): nat {
    match v
    case None => 0
    case Some(s) => DecimalToNat(s)
  }

  /** A string field read back from its parameter: absent reads as "". */
  function TextOf(v: Option<string>): string {
    match v
    case None => ""
    case Some(s) => s
  }

  /** A list field read back from its parameter: absent reads as the empty list, a value is cut at `+`. */
  function ListOf(v: Option<string>): seq<string> {
    match v
    case None => []
    case Some(s) => Split(s, '+')
  }

  lemma EncodeSingle(p: Param)
    ensures Encode([p]) == "&" + p.key + "=" + p.value
  {
    assert [p][..0] == [];
  }

  /** Writing two lists of parameters one after the other encodes their concatenation. */
  lemma {:induction false} EncodeConcat(a: seq<Param>, b: seq<Param>)
    ensures Encode(a + b) == Encode(a) + Encode(b)
  {
    if |b| == 0 {
      assert a + b == a;
    } else {
      var b', last := b[..|b| - 1], b[|b| - 1];
      EncodeConcat(a, b');
      var ab, x := a + b, "&" + Pair(last);
      assert ab[..|ab| - 1] == a + b';
      assert ab[|ab| - 1] == last;
      AppendAssoc(Encode(a + b'), "&", Pair(last));
      AppendAssoc(Encode(b'), "&", Pair(last));
      assert Encode(ab) == Encode(a + b') + x;
      assert Encode(b) == Encode(b') + x;
      AppendAssoc(Encode(a), Encode(b'), x);
    }
  }

  /** EncodeConcat behind a fixed beginning of the URL. */
  lemma EncodeAfter(base: string, a: seq<Param>, b: seq<Param>)
    ensures base + Encode(a + b) == base + Encode(a) + Encode(b)
  {
    EncodeConcat(a, b);
    AppendAssoc(base, Encode(a), Encode(b));
  }

  function Pairs(ps: seq<Param>): seq<string>
  {
    if |ps| == 0 then [] else Pairs(ps[..|ps| - 1]) + [Pair(ps[|ps| - 1])]
  }

  lemma {:induction false} ParsePairOf(p: Param)
    requires '=' !in p.key
    ensures ParsePair(Pair(p)) == p
    decreases |p.key|
  {
    if |p.key| > 0 {
      var q := Param(p.key[1..], p.value);
      ParsePairOf(q);
      assert Pair(p)[1..] == Pair(q);
      assert [p.key[0]] + p.key[1..] == p.key;
    }
  }

  lemma {:induction false} ParsePairNoEq(s: string)
    requires '=' !in s
    ensures ParsePair(s) == Param(s, "")
  {
    if |s| > 0 {
      ParsePairNoEq(s[1..]);
      assert [s[0]] + s[1..] == s;
    }
  }

  lemma {:induction false} ParsePairsOf(ps: seq<Param>)
    requires AllWellformed(ps)
    ensures ParsePairs(Pairs(ps)) == ps
  {
    if |ps| > 0 {
      var init := ps[..|ps| - 1];
      ParsePairsOf(init);
      ParsePairOf(ps[|ps| - 1]);
      var q := Pairs(init) + [Pair(ps[|ps| - 1])];
      assert q[..|q| - 1] == Pairs(init);
      assert ps == init + [ps[|ps| - 1]];
    }
  }

  lemma {:induction false} SplitEncode(ps: seq<Param>)
    requires AllWellformed(ps)
    ensures Split(Encode(ps), '&') == [""] + Pairs(ps)
  {
    if |ps| > 0 {
      var init, p := ps[..|ps| - 1], ps[|ps| - 1];
      SplitEncode(init);
      assert Wellformed(p);
      assert '&' !in Pair(p);
      assert Encode(ps) == Encode(init) + ['&'] + Pair(p);
      SplitConcat(Encode(init), Pair(p), '&');
    }
  }

  /** Decoding an encoded list of well-formed parameters gives the list back, in order. */
  lemma DecodeEncode(ps: seq<Param>)
    requires AllWellformed(ps)
    ensures Decode(Encode(ps)) == ps
  {
    SplitEncode(ps);
    ParsePairsOf(ps);
    assert ([""] + Pairs(ps))[1..] == Pairs(ps);
  }

  /** A single written parameter reads back as itself. */
  lemma DecodeSingle(p: Param)
    requires Wellformed(p)
    ensures Decode("&" + p.key + "=" + p.value) == [p]
    ensures Lookup(Decode("&" + p.key + "=" + p.value), p.key) == Some(p.value)
  {
    EncodeSingle(p);
    DecodeEncode([p]);
    LookupSingle(p, p.key);
  }

  lemma KeysConcat(a: seq<Param>, b: seq<Param>)
    ensures Keys(a + b) == Keys(a) + Keys(b)
  {
    assert forall i :: 0 <= i < |a + b| ==> Keys(a + b)[i] == (Keys(a) + Keys(b))[i];
  }

  /** The first parameter with a key is the one looked up. */
  lemma {:induction false} LookupFirst(ps: seq<Param>, i: nat)
    requires i < |ps| && forall j :: 0 <= j < i ==> ps[j].key != ps[i].key
    ensures Lookup(ps, ps[i].key) == Some(ps[i].value)
  {
    if i > 0 {
      LookupFirst(ps[1..], i - 1);
    }
  }

  lemma LookupSingle(p: Param, k: string)
    ensures Lookup([p], k) == if p.key == k then Some(p.value) else None
  {
    assert [p][1..] == [];
  }

  /** Looking a key up in two lists written one after the other finds it in the first if it is there. */
  lemma {:induction false} LookupConcat(a: seq<Param>, b: seq<Param>)
    ensures forall k :: Lookup(a + b, k) == if Lookup(a, k).Some? then Lookup(a, k) else Lookup(b, k)
  {
    if |a| > 0 {
      LookupConcat(a[1..], b);
      assert (a + b)[1..] == a[1..] + b;
    } else {
      assert a + b == b;
    }
  }

  lemma {:induction false} SubsequenceConcat(xs: seq<string>, ys: seq<string>, xs': seq<string>, ys': seq<string>)
    requires Subsequence(xs, ys) && Subsequence(xs', ys')
    ensures Subsequence(xs + xs', ys + ys')
    decreases |ys|
  {
    if |ys| == 0 {
      assert xs + xs' == xs' && ys + ys' == ys';
    } else if |xs| > 0 && xs[0] == ys[0] && Subsequence(xs[1..], ys[1..]) {
      SubsequenceConcat(xs[1..], ys[1..], xs', ys');
      assert (xs + xs')[1..] == xs[1..] + xs';
      assert (ys + ys')[1..] == ys[1..] + ys';
    } else {
      SubsequenceConcat(xs, ys[1..], xs', ys');
      assert (ys + ys')[1..] == ys[1..] + ys';
    }
  }

  /** The keys of two lists written one after the other keep the order of two key orders put together. */
  lemma WellformedConcat(a: seq<Param>, b: seq<Param>)
    requires AllWellformed(a) && AllWellformed(b)
    ensures AllWellformed(a + b)
  {
    assert forall i :: 0 <= i < |a + b| ==> (a + b)[i] == if i < |a| then a[i] else b[i - |a|];
  }

  // A URL's parameters described field by field: each entry is written, in list order, when it
  // holds a value and skipped when it holds none.

  datatype Entry = Entry(key: string, value: Option<string>)

  function Field(e: Entry): seq<Param> {
    match e.value
    case None => []
    case Some(v) => [Param(e.key, v)]
  }

  /** The entries that hold a value, each written as one parameter, in list order. */
  function Fields(es: seq<Entry>): (ps: seq<Param>)
    ensures |ps| <= |es|
  {
    if |es| == 0 then [] else Fields(es[..|es| - 1]) + Field(es[|es| - 1])
  }

  /** The keys of the entries, set or not: the keys of the entries all written with empty values. */
  function EntryKeys(es: seq<Entry>): (ks: seq<string>)
    ensures |ks| == |es|
  {
    Keys(seq(|es|, i requires 0 <= i < |es| => Param(es[i].key, "")))
  }

  predicate DistinctKeys(es: seq<Entry>) {
    forall i, j :: 0 <= i < j < |es| ==> es[i].key != es[j].key
  }

  /** Keys that survive being written: no `=` and no `&` inside. */
  predicate PlainKeys(ks: seq<string>) {
    forall i :: 0 <= i < |ks| ==> '=' !in ks[i] && '&' !in ks[i]
  }

  /** Values that survive being written: no `&` inside. */
  predicate PlainValue(v: Option<string>) {
    '&' !in v.GetOr("")
  }

  predicate PlainEntries(es: seq<Entry>) {
    PlainKeys(EntryKeys(es)) && forall i :: 0 <= i < |es| ==> PlainValue(es[i].value)
  }

  lemma FieldsSnoc(es: seq<Entry>, e: Entry)
    ensures Fields(es + [e]) == Fields(es) + Field(e)
  {
    assert (es + [e])[..|es|] == es;
  }

  /** The written parameters keep the order of the entries, each key at most at its entry's place. */
  lemma {:induction false} FieldsInOrder(es: seq<Entry>)
    ensures Subsequence(Keys(Fields(es)), EntryKeys(es))
  {
    if |es| > 0 {
      var init, last := es[..|es| - 1], es[|es| - 1];
      FieldsInOrder(init);
      KeysConcat(Fields(init), Field(last));
      assert Subsequence(Keys(Field(last)), [last.key]);
      SubsequenceConcat(Keys(Fields(init)), EntryKeys(init), Keys(Field(last)), [last.key]);
      assert EntryKeys(es) == EntryKeys(init) + [last.key];
    }
  }

  /** A key no entry has is not written. */
  lemma {:induction false} FieldsLookupMissing(es: seq<Entry>, k: string)
    requires forall i :: 0 <= i < |es| ==> es[i].key != k
    ensures Lookup(Fields(es), k) == None
  {
    if |es| > 0 {
      var init, last := es[..|es| - 1], es[|es| - 1];
      FieldsLookupMissing(init, k);
      LookupConcat(Fields(init), Field(last));
      if last.value.Some? {
        LookupSingle(Param(last.key, last.value.value), k);
      }
    }
  }

  /** With distinct keys, looking up an entry's key in what was written finds exactly the entry's value. */
  lemma {:induction false} FieldsLookup(es: seq<Entry>, i: nat)
    requires DistinctKeys(es) && i < |es|
    ensures Lookup(Fields(es), es[i].key) == es[i].value
  {
    var init, last := es[..|es| - 1], es[|es| - 1];
    var k := es[i].key;
    LookupConcat(Fields(init), Field(last));
    if last.value.Some? {
      LookupSingle(Param(last.key, last.value.value), k);
    }
    if i < |es| - 1 {
      FieldsLookup(init, i);
    } else {
      FieldsLookupMissing(init, k);
    }
  }

  /** Nothing is written exactly when no entry holds a value. */
  lemma {:induction false} FieldsEmpty(es: seq<Entry>)
    ensures Fields(es) == [] <==> forall i :: 0 <= i < |es| ==> es[i].value.None?
  {
    if |es| > 0 {
      var init, last := es[..|es| - 1], es[|es| - 1];
      FieldsEmpty(init);
      assert forall i :: 0 <= i < |init| ==> init[i] == es[i];
    }
  }

  lemma {:induction false} FieldsWellformed(es: seq<Entry>)
    requires PlainEntries(es)
    ensures AllWellformed(Fields(es))
  {
    if |es| > 0 {
      var init, last := es[..|es| - 1], es[|es| - 1];
      assert EntryKeys(es)[|es| - 1] == last.key;
      assert forall i :: 0 <= i < |init| ==> EntryKeys(init)[i] == EntryKeys(es)[i];
      FieldsWellformed(init);
      assert Wellformed(Param(last.key, last.value.GetOr("")));
      WellformedConcat(Fields(init), Field(last));
    }
  }

  /** What a Search method leaves to the network: the filter was refused with an error, or
      `request` is called with exactly this URL. */
  datatype Dispatch = Invalid(error: string) | Request(url: string)

  /** The rest of a Search method, with `request` (HTTP GET, read, XML decode) as a parameter. */
  function Perform<T>(d: Dispatch, request: string -> Result<T>): (r: Result<T>)
    ensures d.Invalid? ==> r == Failure(d.error)
    ensures d.Request? ==> r == request(d.url)
  {
    match d
    case Invalid(e) => Failure(e)
    case Request(u) => request(u)
  }

  /** A refused filter issues no request: the outcome is the error whatever `request` would do. */
  lemma InvalidIssuesNoRequest<T>(d: Dispatch, request: string -> Result<T>, other: string -> Result<T>)
    requires d.Invalid?
    ensures Perform(d, request) == Perform(d, other) == Failure(d.error)
  {
  }

  /** An accepted filter issues exactly one request, for the built URL, and its outcome is the request's. */
  lemma RequestIsTheOutcome<T>(d: Dispatch, request: string -> Result<T>)
    requires d.Request?
    ensures Perform(d, request) == request(d.url)
  {
  }
}
