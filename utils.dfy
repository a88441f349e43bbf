/** Document filtering and message formatting helpers. */
module Utils {
  import opened Results
  import opened JsonValue

  /** A document record: a JSON object. */
  type Doc = map<string, Json>

  /** The exceptions `filter_documents` can raise. */
  datatype FilterError =
    | ValueError  // a range that does not unpack into exactly two bounds
    | TypeError   // a date, size or tags value of a kind the comparison or `set` rejects

  // ---------------------------------------------------------------------------
  // Python's order on str

  /** `a <= b` on Python strings: code point by code point, a proper prefix first. */
  predicate LexLe(a: string, b: string)
    ensures a <= b ==> LexLe(a, b)
  {
    a == [] || (b != [] && (a[0] < b[0] || (a[0] == b[0] && LexLe(a[1..], b[1..]))))
  }

  lemma {:induction false} LexLeReflexive(a: string)
    ensures LexLe(a, a)
  {
    if a != [] {
      LexLeReflexive(a[1..]);
    }
  }

  lemma {:induction false} LexLeAntisymmetric(a: string, b: string)
    requires LexLe(a, b) && LexLe(b, a)
    ensures a == b
  {
    if a != [] && b != [] {
      LexLeAntisymmetric(a[1..], b[1..]);
      assert a == [a[0]] + a[1..] && b == [b[0]] + b[1..];
    }
  }

  lemma {:induction false} LexLeTransitive(a: string, b: string, c: string)
    requires LexLe(a, b) && LexLe(b, c)
    ensures LexLe(a, c)
  {
    if a != [] && b != [] && c != [] && a[0] == b[0] == c[0] {
      LexLeTransitive(a[1..], b[1..], c[1..]);
    }
  }

  lemma {:induction false} LexLeTotal(a: string, b: string)
    ensures LexLe(a, b) || LexLe(b, a)
  {
    if a != [] && b != [] && a[0] == b[0] {
      LexLeTotal(a[1..], b[1..]);
    }
  }

  // ---------------------------------------------------------------------------
  // The four filters, one document at a time

  /** One active filter of `filter_documents`. */
  datatype Criterion =
    | ByType(fileType: string)
    | ByDate(start: string, end: string)
    | BySize(minSize: int, maxSize: int)
    | ByTags(tags: seq<string>)

  /** `d.get("date", "")` when it is a str; `None` when it is a value a str cannot
      be compared with. */
  function DateText(d: Doc): (r: Option<string>)
    ensures "date" !in d ==> r == Some("")
    ensures "date" in d ==> (r.Some? <==> d["date"].JStr?)
    ensures "date" in d && r.Some? ==> d["date"] == JStr(r.value)
  {
    if "date" !in d then Some("")
    else match d["date"]
      case JStr(s) => Some(s)
      case _ => None
  }

  /** `d.get("size", 0)` as a number (a bool counts as 0 or 1); `None` when it is a
      value an int cannot be compared with. */
  function SizeNumber(d: Doc): (r: Option<int>)
    ensures "size" !in d ==> r == Some(0)
    ensures "size" in d ==> (r.Some? <==> d["size"].JInt? || d["size"].JBool?)
    ensures "size" in d && d["size"].JBool? ==> r == Some(BoolAsInt(d["size"].b))
    ensures "size" in d && d["size"].JInt? ==> r == Some(d["size"].i)
  {
    if "size" !in d then Some(0)
    else match d["size"]
      case JInt(n) => Some(n)
      case JBool(b) => Some(BoolAsInt(b))
      case _ => None
  }

  /** Whether tag `t` is in `set(d.get("tags", []))`: the items of a list, the
      characters of a str, the keys of an object. */
  predicate HasTag(d: Doc, t: string) {
    "tags" in d &&
    match d["tags"]
      case JArray(items) => JStr(t) in items
      case JStr(s) => |t| == 1 && t[0] in s
      case JObject(fields) => t in fields
      case _ => false
  }

  /** Whether `set(d.get("tags", []))` raises: a number, bool or null is not
      iterable, and a list holding a list or an object is not hashable. */
  predicate TagsRaise(d: Doc) {
    "tags" in d &&
    match d["tags"]
      case JArray(items) => exists i :: 0 <= i < |items| && (items[i].JArray? || items[i].JObject?)
      case JStr(_) => false
      case JObject(_) => false
      case _ => true
  }

  /** The condition of one list comprehension, evaluated on `d`. */
  function Test(c: Criterion, d: Doc): (r: Result<bool, FilterError>)
    ensures r.Err? ==> r.error == TypeError
    ensures r.Err? <==> (c.ByDate? && DateText(d).None?) || (c.BySize? && SizeNumber(d).None?)
                        || (c.ByTags? && TagsRaise(d))
  {
    match c
    case ByType(t) => Ok("type" in d && d["type"] == JStr(t))
    case ByDate(start, end) =>
      (match DateText(d)
       case Some(s) => Ok(LexLe(start, s) && LexLe(s, end))
       case None => Err(TypeError))
    case BySize(lo, hi) =>
      (match SizeNumber(d)
       case Some(n) => Ok(lo <= n <= hi)
       case None => Err(TypeError))
    case ByTags(tags) =>
      if TagsRaise(d) then Err(TypeError)
      else Ok(exists t :: t in tags && HasTag(d, t))
  }

  /** `d` passes every criterion of `cs`. */
  predicate Passes(d: Doc, cs: seq<Criterion>) {
    forall c :: c in cs ==> Test(c, d) == Ok(true)
  }

  // ---------------------------------------------------------------------------
  // Reference definitions

  /** The documents of `s` that pass every criterion of `cs`, in their order. */
  function Kept(s: seq<Doc>, cs: seq<Criterion>): seq<Doc> {
    if s == [] then []
    else (if Passes(s[0], cs) then [s[0]] else []) + Kept(s[1..], cs)
  }

  /** `r` is `s` with some elements left out and the rest kept in order. */
  predicate Subsequence(r: seq<Doc>, s: seq<Doc>) {
    if r == [] then true
    else if s == [] then false
    else (r[0] == s[0] && Subsequence(r[1..], s[1..])) || Subsequence(r, s[1..])
  }

  /** No criterion raises on any document that reaches it, criteria applied in order. */
  predicate Evaluates(s: seq<Doc>, cs: seq<Criterion>)
    decreases |cs|
  {
    cs == [] ||
    ((forall i :: 0 <= i < |s| ==> Test(cs[0], s[i]).Ok?) && Evaluates(Kept(s, [cs[0]]), cs[1..]))
  }

  lemma {:induction false} KeptMembership(s: seq<Doc>, cs: seq<Criterion>, d: Doc)
    ensures d in Kept(s, cs) <==> d in s && Passes(d, cs)
  {
    if s != [] {
      KeptMembership(s[1..], cs, d);
      assert s == [s[0]] + s[1..];
    }
  }

  lemma {:induction false} KeptIsSubsequence(s: seq<Doc>, cs: seq<Criterion>)
    ensures Subsequence(Kept(s, cs), s)
  {
    if s != [] {
      KeptIsSubsequence(s[1..], cs);
      var r := Kept(s, cs);
      if Passes(s[0], cs) {
        assert r[0] == s[0] && r[1..] == Kept(s[1..], cs);
      } else {
        assert r == Kept(s[1..], cs);
        if r != [] {
          SubsequenceOfSuffix(r, s);
        }
      }
    }
  }

  /** A subsequence of `s[1..]` is a subsequence of `s`. */
  lemma {:induction false} SubsequenceOfSuffix(r: seq<Doc>, s: seq<Doc>)
    requires s != [] && Subsequence(r, s[1..])
    ensures Subsequence(r, s)
  {
  }

  /** With no criteria every document is kept. */
  lemma {:induction false} KeptNoCriteria(s: seq<Doc>)
    ensures Kept(s, []) == s
  {
    if s != [] {
      KeptNoCriteria(s[1..]);
      assert s == [s[0]] + s[1..];
    }
  }

  lemma PassesConcat(d: Doc, a: seq<Criterion>, b: seq<Criterion>)
    ensures Passes(d, a + b) <==> Passes(d, a) && Passes(d, b)
  {
    if Passes(d, a) && Passes(d, b) {
      forall c | c in a + b ensures Test(c, d) == Ok(true) {
        if c in a { } else { assert c in b; }
      }
    }
  }

  /** Applying criteria one after another is applying them all at once. */
  lemma {:induction false} KeptComposes(s: seq<Doc>, a: seq<Criterion>, b: seq<Criterion>)
    ensures Kept(Kept(s, a), b) == Kept(s, a + b)
  {
    if s != [] {
      KeptComposes(s[1..], a, b);
      PassesConcat(s[0], a, b);
      if Passes(s[0], a) {
        assert Kept(s, a) == [s[0]] + Kept(s[1..], a);
        assert Kept(s, a)[0] == s[0] && Kept(s, a)[1..] == Kept(s[1..], a);
      } else {
        assert Kept(s, a) == Kept(s[1..], a);
      }
    }
  }

  /** Evaluating `a + b` is evaluating `a`, then `b` on what `a` keeps. */
  lemma {:induction false} EvaluatesConcat(s: seq<Doc>, a: seq<Criterion>, b: seq<Criterion>)
    ensures Evaluates(s, a + b) <==> Evaluates(s, a) && Evaluates(Kept(s, a), b)
    decreases |a|
  {
    if a == [] {
      assert a + b == b;
      KeptNoCriteria(s);
    } else {
      assert (a + b)[0] == a[0] && (a + b)[1..] == a[1..] + b;
      EvaluatesConcat(Kept(s, [a[0]]), a[1..], b);
      KeptComposes(s, [a[0]], a[1..]);
      assert [a[0]] + a[1..] == a;
    }
  }

  // ---------------------------------------------------------------------------
  // One list comprehension, and the whole filter

  /** `[d for d in s if <c on d>]`: the first document on which the condition
      raises raises out of the comprehension. */
  function Comprehend(s: seq<Doc>, c: Criterion): (r: Result<seq<Doc>, FilterError>)
    ensures r.Ok? ==> |r.value| <= |s| && forall d :: d in r.value ==> d in s && Test(c, d) == Ok(true)
    ensures r.Err? ==> exists i :: 0 <= i < |s| && Test(c, s[i]) == Err(r.error)
  {
    if s == [] then Ok([])
    else
      var keep :- Test(c, s[0]);
      var rest :- Comprehend(s[1..], c);
      Ok(if keep then [s[0]] + rest else rest)
  }

  /** The comprehension succeeds exactly when its condition evaluates on every
      document, and then keeps exactly the documents that satisfy it. */
  lemma {:induction false} ComprehendMeaning(s: seq<Doc>, c: Criterion)
    ensures Comprehend(s, c).Ok? <==> forall i :: 0 <= i < |s| ==> Test(c, s[i]).Ok?
    ensures Comprehend(s, c).Ok? ==> Comprehend(s, c).value == Kept(s, [c])
  {
    if s != [] {
      ComprehendMeaning(s[1..], c);
      assert forall i :: 1 <= i < |s| ==> s[1..][i - 1] == s[i];
      assert Passes(s[0], [c]) <==> Test(c, s[0]) == Ok(true);
    }
  }

  /** A falsy argument (`None`, `""`, `[]`) switches its filter off. */
  predicate NonEmptyText(o: Option<string>) {
    o.Some? && o.value != ""
  }

  predicate NonEmptyList<T>(o: Option<seq<T>>) {
    o.Some? && o.value != []
  }

  function TypeCriterion(fileType: Option<string>): Option<Criterion> {
    if NonEmptyText(fileType) then Some(ByType(fileType.value)) else None
  }

  /** `start, end = date_range`, which raises unless there are exactly two. */
  function DateCriterion(dateRange: Option<seq<string>>): (r: Result<Option<Criterion>, FilterError>)
    ensures r.Err? <==> NonEmptyList(dateRange) && |dateRange.value| != 2
    ensures r.Err? ==> r.error == ValueError
    ensures r.Ok? ==> (r.value.None? <==> !NonEmptyList(dateRange))
    ensures r.Ok? && r.value.Some? ==>
              r.value.value.ByDate? && dateRange.value == [r.value.value.start, r.value.value.end]
  {
    if !NonEmptyList(dateRange) then Ok(None)
    else if |dateRange.value| != 2 then Err(ValueError)
    else Ok(Some(ByDate(dateRange.value[0], dateRange.value[1])))
  }

  /** `min_size, max_size = size_range`, which raises unless there are exactly two. */
  function SizeCriterion(sizeRange: Option<seq<int>>): (r: Result<Option<Criterion>, FilterError>)
    ensures r.Err? <==> NonEmptyList(sizeRange) && |sizeRange.value| != 2
    ensures r.Err? ==> r.error == ValueError
    ensures r.Ok? ==> (r.value.None? <==> !NonEmptyList(sizeRange))
    ensures r.Ok? && r.value.Some? ==>
              r.value.value.BySize? && sizeRange.value == [r.value.value.minSize, r.value.value.maxSize]
  {
    if !NonEmptyList(sizeRange) then Ok(None)
    else if |sizeRange.value| != 2 then Err(ValueError)
    else Ok(Some(BySize(sizeRange.value[0], sizeRange.value[1])))
  }

  function TagsCriterion(tags: Option<seq<string>>): Option<Criterion> {
    if NonEmptyList(tags) then Some(ByTags(tags.value)) else None
  }

  /** One `if <argument>: filtered = [...]` step. */
  function Step(s: seq<Doc>, c: Option<Criterion>): (r: Result<seq<Doc>, FilterError>)
    ensures r.Ok? ==> |r.value| <= |s| && forall d :: d in r.value ==> d in s
  {
    match c
    case None => Ok(s)
    case Some(crit) => Comprehend(s, crit)
  }

  /** `filter_documents(docs, file_type, date_range, size_range, tags)`. */
  function FilterDocuments(docs: seq<Doc>, fileType: Option<string>, dateRange: Option<seq<string>>,
                           sizeRange: Option<seq<int>>, tags: Option<seq<string>>): (r: Result<seq<Doc>, FilterError>)
    ensures r.Ok? ==> |r.value| <= |docs| && forall d :: d in r.value ==> d in docs
  {
    var byType :- Step(docs, TypeCriterion(fileType));
    var date :- DateCriterion(dateRange);
    var byDate :- Step(byType, date);
    var size :- SizeCriterion(sizeRange);
    var bySize :- Step(byDate, size);
    var byTags :- Step(bySize, TagsCriterion(tags));
    Ok(byTags)
  }

  function AsSeq(c: Option<Criterion>): seq<Criterion> {
    if c.Some? then [c.value] else []
  }

  /** The ranges unpack into two bounds each, or are falsy. */
  predicate RangesUnpack(dateRange: Option<seq<string>>, sizeRange: Option<seq<int>>) {
    DateCriterion(dateRange).Ok? && SizeCriterion(sizeRange).Ok?
  }

  /** The filters the arguments switch on, in the order they are applied. */
  function ActiveCriteria(fileType: Option<string>, dateRange: Option<seq<string>>,
                          sizeRange: Option<seq<int>>, tags: Option<seq<string>>): seq<Criterion>
    requires RangesUnpack(dateRange, sizeRange)
  {
    AsSeq(TypeCriterion(fileType)) + AsSeq(DateCriterion(dateRange).value)
      + AsSeq(SizeCriterion(sizeRange).value) + AsSeq(TagsCriterion(tags))
  }

  lemma StepMeaning(s: seq<Doc>, c: Option<Criterion>)
    ensures Step(s, c).Ok? <==> Evaluates(s, AsSeq(c))
    ensures Step(s, c).Ok? ==> Step(s, c).value == Kept(s, AsSeq(c))
  {
    if c.Some? {
      ComprehendMeaning(s, c.value);
      assert AsSeq(c)[1..] == [];
    } else {
      KeptNoCriteria(s);
    }
  }

  /** The filter succeeds exactly when both ranges unpack and no active filter
      raises on a document that reaches it; it then returns the documents of
      `docs` that pass every active filter, in their order. */
  lemma FilterMeaning(docs: seq<Doc>, fileType: Option<string>, dateRange: Option<seq<string>>,
                      sizeRange: Option<seq<int>>, tags: Option<seq<string>>)
    ensures FilterDocuments(docs, fileType, dateRange, sizeRange, tags).Ok?
        <==> RangesUnpack(dateRange, sizeRange)
             && Evaluates(docs, ActiveCriteria(fileType, dateRange, sizeRange, tags))
    ensures FilterDocuments(docs, fileType, dateRange, sizeRange, tags).Ok?
        ==> FilterDocuments(docs, fileType, dateRange, sizeRange, tags).value
            == Kept(docs, ActiveCriteria(fileType, dateRange, sizeRange, tags))
  {
    if RangesUnpack(dateRange, sizeRange) {
      var t := AsSeq(TypeCriterion(fileType));
      var dt := AsSeq(DateCriterion(dateRange).value);
      var sz := AsSeq(SizeCriterion(sizeRange).value);
      var tg := AsSeq(TagsCriterion(tags));
      var s1 := Kept(docs, t);
      var s2 := Kept(s1, dt);
      var s3 := Kept(s2, sz);
      StepMeaning(docs, TypeCriterion(fileType));
      StepMeaning(s1, DateCriterion(dateRange).value);
      StepMeaning(s2, SizeCriterion(sizeRange).value);
      StepMeaning(s3, TagsCriterion(tags));
      EvaluatesConcat(docs, t, dt);
      KeptComposes(docs, t, dt);
      EvaluatesConcat(docs, t + dt, sz);
      KeptComposes(docs, t + dt, sz);
      EvaluatesConcat(docs, t + dt + sz, tg);
      KeptComposes(docs, t + dt + sz, tg);
    }
  }

  /** What the filter returns is an order-preserving subsequence of `docs`. */
  lemma FilterIsSubsequence(docs: seq<Doc>, fileType: Option<string>, dateRange: Option<seq<string>>,
                            sizeRange: Option<seq<int>>, tags: Option<seq<string>>)
    ensures var r := FilterDocuments(docs, fileType, dateRange, sizeRange, tags);
            r.Ok? ==> Subsequence(r.value, docs)
  {
    FilterMeaning(docs, fileType, dateRange, sizeRange, tags);
    if RangesUnpack(dateRange, sizeRange) {
      KeptIsSubsequence(docs, ActiveCriteria(fileType, dateRange, sizeRange, tags));
    }
  }

  /** A document is returned exactly when it is one of `docs` and passes every
      active filter, each stated in the terms of its Python comparison. */
  lemma FilterKeepsExactly(docs: seq<Doc>, fileType: Option<string>, dateRange: Option<seq<string>>,
                           sizeRange: Option<seq<int>>, tags: Option<seq<string>>, d: Doc)
    requires FilterDocuments(docs, fileType, dateRange, sizeRange, tags).Ok?
    ensures d in FilterDocuments(docs, fileType, dateRange, sizeRange, tags).value
        <==> d in docs
             && (NonEmptyText(fileType) ==> "type" in d && d["type"] == JStr(fileType.value))
             && (NonEmptyList(dateRange) ==>
                   DateText(d).Some?
                   && LexLe(dateRange.value[0], DateText(d).value)
                   && LexLe(DateText(d).value, dateRange.value[1]))
             && (NonEmptyList(sizeRange) ==>
                   SizeNumber(d).Some?
                   && sizeRange.value[0] <= SizeNumber(d).value <= sizeRange.value[1])
             && (NonEmptyList(tags) ==> !TagsRaise(d) && exists t :: t in tags.value && HasTag(d, t))
  {
    FilterMeaning(docs, fileType, dateRange, sizeRange, tags);
    KeptMembership(docs, ActiveCriteria(fileType, dateRange, sizeRange, tags), d);
    ActivePassesMeaning(d, fileType, dateRange, sizeRange, tags);
  }

  /** Passing the active criteria, spelled out filter by filter. */
  lemma ActivePassesMeaning(d: Doc, fileType: Option<string>, dateRange: Option<seq<string>>,
                            sizeRange: Option<seq<int>>, tags: Option<seq<string>>)
    requires RangesUnpack(dateRange, sizeRange)
    ensures Passes(d, ActiveCriteria(fileType, dateRange, sizeRange, tags))
        <==> (NonEmptyText(fileType) ==> "type" in d && d["type"] == JStr(fileType.value))
             && (NonEmptyList(dateRange) ==>
                   DateText(d).Some?
                   && LexLe(dateRange.value[0], DateText(d).value)
                   && LexLe(DateText(d).value, dateRange.value[1]))
             && (NonEmptyList(sizeRange) ==>
                   SizeNumber(d).Some?
                   && sizeRange.value[0] <= SizeNumber(d).value <= sizeRange.value[1])
             && (NonEmptyList(tags) ==> !TagsRaise(d) && exists t :: t in tags.value && HasTag(d, t))
  {
    var t := AsSeq(TypeCriterion(fileType));
    var dt := AsSeq(DateCriterion(dateRange).value);
    var sz := AsSeq(SizeCriterion(sizeRange).value);
    var tg := AsSeq(TagsCriterion(tags));
    PassesConcat(d, t, dt);
    PassesConcat(d, t + dt, sz);
    PassesConcat(d, t + dt + sz, tg);
    PassesOptional(d, TypeCriterion(fileType));
    PassesOptional(d, DateCriterion(dateRange).value);
    PassesOptional(d, SizeCriterion(sizeRange).value);
    PassesOptional(d, TagsCriterion(tags));
  }

  lemma PassesOptional(d: Doc, c: Option<Criterion>)
    ensures Passes(d, AsSeq(c)) <==> c.None? || Test(c.value, d) == Ok(true)
  {
    if c.Some? {
      assert c.value in AsSeq(c);
    }
  }

  /** Every returned document has `file_type` as its type, a date within the
      range, a size within the range, and a tag in common with `tags`, for each
      filter switched on; a document without tags is never returned under a tag
      filter. */
  lemma FilterResultsPass(docs: seq<Doc>, fileType: Option<string>, dateRange: Option<seq<string>>,
                          sizeRange: Option<seq<int>>, tags: Option<seq<string>>, d: Doc)
    requires FilterDocuments(docs, fileType, dateRange, sizeRange, tags).Ok?
    requires d in FilterDocuments(docs, fileType, dateRange, sizeRange, tags).value
    ensures d in docs
    ensures fileType.Some? && fileType.value != "" ==> "type" in d && d["type"] == JStr(fileType.value)
    ensures dateRange.Some? && dateRange.value != [] ==>
              |dateRange.value| == 2
              && var date := if "date" in d then d["date"] else JStr("");
                 date.JStr? && LexLe(dateRange.value[0], date.s) && LexLe(date.s, dateRange.value[1])
    ensures sizeRange.Some? && sizeRange.value != [] ==>
              |sizeRange.value| == 2 && SizeNumber(d).Some?
              && sizeRange.value[0] <= SizeNumber(d).value <= sizeRange.value[1]
    ensures tags.Some? && tags.value != [] ==> "tags" in d
  {
    FilterMeaning(docs, fileType, dateRange, sizeRange, tags);
    FilterKeepsExactly(docs, fileType, dateRange, sizeRange, tags, d);
  }

  /** With every filter argument falsy the documents come back unchanged. */
  lemma FilterAllFalsyIsIdentity(docs: seq<Doc>, fileType: Option<string>, dateRange: Option<seq<string>>,
                                 sizeRange: Option<seq<int>>, tags: Option<seq<string>>)
    requires !NonEmptyText(fileType) && !NonEmptyList(dateRange)
    requires !NonEmptyList(sizeRange) && !NonEmptyList(tags)
    ensures FilterDocuments(docs, fileType, dateRange, sizeRange, tags) == Ok(docs)
  {
  }

  /** A date range that does not hold exactly two bounds raises `ValueError`,
      whatever the documents. */
  lemma FilterBadDateRange(docs: seq<Doc>, fileType: Option<string>, dateRange: Option<seq<string>>,
                           sizeRange: Option<seq<int>>, tags: Option<seq<string>>)
    requires NonEmptyList(dateRange) && |dateRange.value| != 2
    ensures FilterDocuments(docs, fileType, dateRange, sizeRange, tags) == Err(ValueError)
  {
    StepMeaning(docs, TypeCriterion(fileType));
    if NonEmptyText(fileType) {
      ComprehendMeaning(docs, ByType(fileType.value));
    }
  }

  /** A size range that does not hold exactly two bounds makes the filter raise:
      `ValueError`, unless a date comparison raised `TypeError` first. */
  lemma FilterBadSizeRange(docs: seq<Doc>, fileType: Option<string>, dateRange: Option<seq<string>>,
                           sizeRange: Option<seq<int>>, tags: Option<seq<string>>)
    requires NonEmptyList(sizeRange) && |sizeRange.value| != 2
    ensures FilterDocuments(docs, fileType, dateRange, sizeRange, tags).Err?
  {
  }

  /** When both ranges unpack and every document's date, size and tags have kinds
      the active comparisons accept, the filter does not raise. */
  lemma FilterWellTypedSucceeds(docs: seq<Doc>, fileType: Option<string>, dateRange: Option<seq<string>>,
                                sizeRange: Option<seq<int>>, tags: Option<seq<string>>)
    requires RangesUnpack(dateRange, sizeRange)
    requires NonEmptyList(dateRange) ==> forall i :: 0 <= i < |docs| ==> DateText(docs[i]).Some?
    requires NonEmptyList(sizeRange) ==> forall i :: 0 <= i < |docs| ==> SizeNumber(docs[i]).Some?
    requires NonEmptyList(tags) ==> forall i :: 0 <= i < |docs| ==> !TagsRaise(docs[i])
    ensures FilterDocuments(docs, fileType, dateRange, sizeRange, tags).Ok?
  {
    var cs := ActiveCriteria(fileType, dateRange, sizeRange, tags);
    forall c, d | c in cs && d in docs ensures Test(c, d).Ok? {
      var i :| 0 <= i < |docs| && docs[i] == d;
    }
    EvaluatesWhenAllEvaluate(docs, cs);
    FilterMeaning(docs, fileType, dateRange, sizeRange, tags);
  }

  /** Criteria that evaluate on every document of `s` evaluate on what reaches them. */
  lemma {:induction false} EvaluatesWhenAllEvaluate(s: seq<Doc>, cs: seq<Criterion>)
    requires forall c, d :: c in cs && d in s ==> Test(c, d).Ok?
    ensures Evaluates(s, cs)
    decreases |cs|
  {
    if cs != [] {
      var rest := Kept(s, [cs[0]]);
      forall d | d in rest ensures d in s { KeptMembership(s, [cs[0]], d); }
      EvaluatesWhenAllEvaluate(rest, cs[1..]);
    }
  }

  // ---------------------------------------------------------------------------
  // Messages

  const ErrorTag: string := "[bold red]Error:[/bold red] "
  const SuccessTag: string := "[bold green]Success:[/bold green] "

  /** `format_error(msg)`: the red error tag, then the message. */
  function FormatError(msg: string): (r: string)
    ensures |r| == |ErrorTag| + |msg|
    ensures r[..|ErrorTag|] == ErrorTag && r[|ErrorTag|..] == msg
  {
    ErrorTag + msg
  }

  /** `format_success(msg)`: the green success tag, then the message. */
  function FormatSuccess(msg: string): (r: string)
    ensures |r| == |SuccessTag| + |msg|
    ensures r[..|SuccessTag|] == SuccessTag && r[|SuccessTag|..] == msg
  {
    SuccessTag + msg
  }

  /** The message can be read back from either formatted line, and an error line
      is never a success line. */
  lemma FormattedMessagesDecode(a: string, b: string)
    ensures FormatError(a) == FormatError(b) ==> a == b
    ensures FormatSuccess(a) == FormatSuccess(b) ==> a == b
    ensures FormatError(a) != FormatSuccess(b)
  {
    assert FormatError(a)[6] == 'r' && FormatSuccess(b)[6] == 'g';
  }

  /** `syntax_highlight(text, filetype)`: the text, unchanged, for every file type. */
  function SyntaxHighlight(text: string, filetype: string): (r: string)
    ensures r == text
  {
    text
  }
}
