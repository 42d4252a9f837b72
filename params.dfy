/** The query-parameter value objects of sjtuq/param.py: question filters,
    the paging/filter parameters, the sort order, and the query that bundles
    the last two. */
module Params {
  import opened Outcomes
  import opened Json

  /** A question object. sjtuq/question.py is not part of this model: a
      question is known only by the identifier its get_id method returns. */
  datatype Question = Question(id: string)

  /** The `question` argument of a filter: a Question object or a bare
      question identifier. */
  datatype Subject = Asked(question: Question) | Named(name: string)

  /** An argument that must be an instance of class `T`: such an instance,
      or an object of any other class. */
  datatype Arg<T> = Instance(value: T) | Other

  /** A filter on the answers to one question. */
  datatype QuestionFilter = QuestionFilter(question: Subject, answer: Json)

  /** `all(isinstance(a, str) for a in xs)`, element by element. */
  predicate AllStr(xs: seq<Json>) {
    xs == [] || (IsStr(xs[0]) && AllStr(xs[1..]))
  }

  lemma {:induction false} AllStrAt(xs: seq<Json>)
    ensures AllStr(xs) <==> forall i | 0 <= i < |xs| :: IsStr(xs[i])
  {
    if xs != [] {
      AllStrAt(xs[1..]);
      assert forall i | 1 <= i < |xs| :: xs[i] == xs[1..][i - 1];
    }
  }

  /** QuestionFilter(question, answer): the answer must be an int (bool
      included), a float, a str, or a list of strs; anything else raises
      TypeError. The arguments are stored unchanged. */
  function NewQuestionFilter(question: Subject, answer: Json): (r: Result<QuestionFilter>)
    ensures r.Success? <==>
      || answer.Bool? || answer.Int? || answer.Float? || IsStr(answer)
      || (answer.Arr? && forall i | 0 <= i < |answer.items| :: IsStr(answer.items[i]))
    ensures r.Failure? ==> r.error == TypeError
    ensures r.Success? ==> r.value.question == question && r.value.answer == answer
  {
    if !(answer.Bool? || answer.Int? || answer.Float? || IsStr(answer) || answer.Arr?) then
      Failure(TypeError)
    else if answer.Arr? && !AllStr(answer.items) then
      AllStrAt(answer.items);
      Failure(TypeError)
    else
      if answer.Arr? then
        AllStrAt(answer.items);
        Success(QuestionFilter(question, answer))
      else
        Success(QuestionFilter(question, answer))
  }

  /** QuestionFilter.get_id: a bare identifier is its own id. */
  function GetId(f: QuestionFilter): (id: string)
    ensures f.question.Named? ==> id == f.question.name
    ensures f.question.Asked? ==> id == f.question.question.id
  {
    match f.question
    case Asked(q) => q.id
    case Named(name) => name
  }

  /** QuestionFilter.get_answer. */
  function GetAnswer(f: QuestionFilter): (answer: Json)
    ensures answer == f.answer
  {
    f.answer
  }

  /** A constructed filter reports the identifier and answer it was built
      from. */
  lemma FilterAccessors(question: Subject, answer: Json, f: QuestionFilter)
    requires NewQuestionFilter(question, answer) == Success(f)
    ensures question.Named? ==> GetId(f) == question.name
    ensures question.Asked? ==> GetId(f) == question.question.id
    ensures GetAnswer(f) == answer
  {
  }

  /** The parameters of one export query. */
  datatype Param = Param(
    current: int,
    pageSize: int,
    account: Option<string>,
    userOrganization: Option<string>,
    byQuestion: Option<seq<QuestionFilter>>)

  predicate AllInstances<T>(xs: seq<Arg<T>>) {
    forall i | 0 <= i < |xs| :: xs[i].Instance?
  }

  function Instances<T>(xs: seq<Arg<T>>): seq<T>
    requires AllInstances(xs)
  {
    seq(|xs|, i requires 0 <= i < |xs| => xs[i].value)
  }

  /** Param(current, page_size, account, user_organization, by_question):
      a negative `current` or a `page_size` outside 0..100 raises ValueError
      (checked in that order), then a `by_question` list holding anything but
      QuestionFilter objects raises TypeError; otherwise the five values are
      stored unchanged. */
  function NewParam(
    current: int,
    pageSize: int,
    account: Option<string>,
    userOrganization: Option<string>,
    byQuestion: Option<seq<Arg<QuestionFilter>>>
  ): (r: Result<Param>)
    ensures current < 0 ==> r == Failure(ValueError)
    ensures 0 <= current && (pageSize < 0 || 100 < pageSize) ==> r == Failure(ValueError)
    ensures r.Success? <==>
      && 0 <= current && 0 <= pageSize <= 100
      && (byQuestion.Some? ==> forall i | 0 <= i < |byQuestion.value| :: byQuestion.value[i].Instance?)
    ensures r.Failure? && 0 <= current && 0 <= pageSize <= 100 ==> r.error == TypeError
    ensures r.Success? ==>
      && r.value.current == current
      && r.value.pageSize == pageSize
      && r.value.account == account
      && r.value.userOrganization == userOrganization
      && r.value.byQuestion.Some? == byQuestion.Some?
      && (byQuestion.Some? ==>
            && |r.value.byQuestion.value| == |byQuestion.value|
            && forall i | 0 <= i < |byQuestion.value| ::
                 byQuestion.value[i] == Instance(r.value.byQuestion.value[i]))
  {
    if current < 0 then Failure(ValueError)
    else if pageSize < 0 || pageSize > 100 then Failure(ValueError)
    else
      match byQuestion
      case None => Success(Param(current, pageSize, account, userOrganization, None))
      case Some(xs) =>
        if !AllInstances(xs) then Failure(TypeError)
        else Success(Param(current, pageSize, account, userOrganization, Some(Instances(xs))))
  }

  /** None serialises as null, a str as itself. */
  function OrNull(o: Option<string>): Json {
    match o
    case None => Null
    case Some(s) => Str(s)
  }

  const FixedKeys: seq<string> := ["current", "pageSize", "account", "user_organization"]

  /** The four fixed entries of the dict literal in Param.to_json. */
  function FixedFields(p: Param): Fields {
    [ ("current", Int(p.current)),
      ("pageSize", Int(p.pageSize)),
      ("account", OrNull(p.account)),
      ("user_organization", OrNull(p.userOrganization)) ]
  }

  /** The comprehension `{q.get_id(): q.get_answer() for q in filters}`. */
  function FilterFields(filters: seq<QuestionFilter>): Fields
    decreases |filters|
  {
    if filters == [] then []
    else
      var last := filters[|filters| - 1];
      Put(FilterFields(filters[..|filters| - 1]), GetId(last), GetAnswer(last))
  }

  /** `{**base, **extra}`: the entries of `extra` assigned one by one onto
      `base`. */
  function Spread(base: Fields, extra: Fields): Fields
    decreases |extra|
  {
    if extra == [] then base
    else
      var n := |extra| - 1;
      Put(Spread(base, extra[..n]), extra[n].0, extra[n].1)
  }

  /** The dict Param.to_json encodes; iterating a missing `by_question`
      (None) raises TypeError. */
  function ParamObject(p: Param): (r: Result<Fields>)
    ensures r.Success? <==> p.byQuestion.Some?
    ensures r.Failure? ==> r.error == TypeError
  {
    match p.byQuestion
    case None => Failure(TypeError)
    case Some(filters) => Success(Spread(FixedFields(p), FilterFields(filters)))
  }

  /** Param.to_json: the json.dumps string of that dict. */
  function ParamToJson(p: Param): (r: Result<Json>)
    ensures r.Success? <==> p.byQuestion.Some?
    ensures r.Failure? ==> r.error == TypeError
    ensures r.Success? ==>
      && r.value.Text? && r.value.doc.Obj?
      && Keys(r.value.doc.fields) == FixedKeys + Appended(FixedKeys, Ids(p.byQuestion.value))
      && UniqueKeys(r.value.doc.fields)
  {
    var fields :- ParamObject(p);
    ParamObjectKeys(p);
    Success(Text(Obj(fields)))
  }

  /** Reference reading of a filter list: the answer of the last filter whose
      question has identifier `k`. */
  function LastAnswer(filters: seq<QuestionFilter>, k: string): Option<Json>
    decreases |filters|
  {
    if filters == [] then None
    else if GetId(filters[|filters| - 1]) == k then Some(GetAnswer(filters[|filters| - 1]))
    else LastAnswer(filters[..|filters| - 1], k)
  }

  /** In the comprehension a later filter on the same question overwrites an
      earlier one. */
  lemma {:induction false} FilterFieldsGet(filters: seq<QuestionFilter>, k: string)
    ensures Get(FilterFields(filters), k) == LastAnswer(filters, k)
    decreases |filters|
  {
    if filters != [] {
      var n := |filters| - 1;
      FilterFieldsGet(filters[..n], k);
      PutGet(FilterFields(filters[..n]), GetId(filters[n]), GetAnswer(filters[n]), k);
    }
  }

  lemma {:induction false} FilterFieldsUnique(filters: seq<QuestionFilter>)
    ensures UniqueKeys(FilterFields(filters))
    decreases |filters|
  {
    if filters != [] {
      var n := |filters| - 1;
      FilterFieldsUnique(filters[..n]);
      PutUnique(FilterFields(filters[..n]), GetId(filters[n]), GetAnswer(filters[n]));
    }
  }

  /** A lookup in a concatenation finds the first part's entry first. */
  lemma {:induction false} GetAppend(xs: Fields, ys: Fields, k: string)
    ensures Get(xs + ys, k) == if k in Keys(xs) then Get(xs, k) else Get(ys, k)
  {
    if xs == [] {
      assert xs + ys == ys;
    } else {
      assert (xs + ys)[1..] == xs[1..] + ys;
      assert Keys(xs) == [xs[0].0] + Keys(xs[1..]);
      GetAppend(xs[1..], ys, k);
    }
  }

  /** Spreading a dict with distinct keys onto `base`: its own keys take its
      values, every other key keeps the value it had in `base`. */
  lemma {:induction false} SpreadGet(base: Fields, extra: Fields, k: string)
    requires UniqueKeys(extra)
    ensures Get(Spread(base, extra), k) == if k in Keys(extra) then Get(extra, k) else Get(base, k)
    decreases |extra|
  {
    if extra != [] {
      var n := |extra| - 1;
      var init := extra[..n];
      assert extra == init + [extra[n]];
      assert UniqueKeys(init);
      SpreadGet(base, init, k);
      PutGet(Spread(base, init), extra[n].0, extra[n].1, k);
      GetAppend(init, [extra[n]], k);
      assert Keys(extra) == Keys(init) + [extra[n].0];
    }
  }

  /** Param.to_json maps each fixed key to its field unless a filter on a
      question with that identifier overwrites it, and each filtered question
      to the answer of the last filter on it. */
  lemma ParamObjectGet(p: Param, k: string)
    requires p.byQuestion.Some?
    ensures ParamObject(p).Success?
    ensures Get(ParamObject(p).value, k) ==
      if LastAnswer(p.byQuestion.value, k).Some? then LastAnswer(p.byQuestion.value, k)
      else Get(FixedFields(p), k)
  {
    var filters := p.byQuestion.value;
    FilterFieldsUnique(filters);
    SpreadGet(FixedFields(p), FilterFields(filters), k);
    FilterFieldsGet(filters, k);
  }

  /** The identifiers of the filtered questions, in list order. */
  function Ids(filters: seq<QuestionFilter>): seq<string>
    decreases |filters|
  {
    if filters == [] then []
    else Ids(filters[..|filters| - 1]) + [GetId(filters[|filters| - 1])]
  }

  /** The keys of `ks`, in order, that are neither in `seen` nor earlier in
      `ks`: what a run of assignments adds to a dict whose keys are
      `seen`. */
  function Appended(seen: seq<string>, ks: seq<string>): seq<string>
    decreases |ks|
  {
    if ks == [] then []
    else
      var n := |ks| - 1;
      var init := Appended(seen, ks[..n]);
      if ks[n] in seen || ks[n] in init then init else init + [ks[n]]
  }

  lemma {:induction false} AppendedIn(seen: seq<string>, ks: seq<string>, k: string)
    ensures k in Appended(seen, ks) <==> k in ks && k !in seen
    decreases |ks|
  {
    if ks != [] {
      var n := |ks| - 1;
      AppendedIn(seen, ks[..n], k);
      assert ks == ks[..n] + [ks[n]];
    }
  }

  lemma AppendedSnoc(seen: seq<string>, ks: seq<string>, k: string)
    ensures Appended(seen, ks + [k]) ==
      if k in seen || k in Appended(seen, ks) then Appended(seen, ks) else Appended(seen, ks) + [k]
  {
    assert (ks + [k])[..|ks|] == ks;
  }

  /** Filtering out what an earlier pass already dropped changes nothing. */
  lemma {:induction false} AppendedTwice(seen: seq<string>, ks: seq<string>)
    ensures Appended(seen, Appended([], ks)) == Appended(seen, ks)
    decreases |ks|
  {
    if ks != [] {
      var n := |ks| - 1;
      var k := ks[n];
      var once := Appended([], ks[..n]);
      AppendedTwice(seen, ks[..n]);
      AppendedIn([], ks[..n], k);
      AppendedIn(seen, ks[..n], k);
      if k !in once {
        AppendedIn(seen, once, k);
        assert (once + [k])[..|once|] == once;
      }
    }
  }

  /** The comprehension's keys are the question identifiers in order of
      first appearance. */
  lemma {:induction false} FilterFieldsKeys(filters: seq<QuestionFilter>)
    ensures Keys(FilterFields(filters)) == Appended([], Ids(filters))
    decreases |filters|
  {
    if filters != [] {
      var n := |filters| - 1;
      var init := filters[..n];
      var id := GetId(filters[n]);
      var before := Appended([], Ids(init));
      FilterFieldsKeys(init);
      PutKeys(FilterFields(init), id, GetAnswer(filters[n]));
      AppendedSnoc([], Ids(init), id);
      if id in before {
        assert Keys(FilterFields(filters)) == before == Appended([], Ids(filters));
      } else {
        assert Keys(FilterFields(filters)) == before + [id] == Appended([], Ids(filters));
      }
    }
  }

  /** Spreading appends the spread dict's new keys, in its order, after the
      keys of `base`. */
  lemma {:induction false} SpreadKeyOrder(base: Fields, extra: Fields)
    ensures Keys(Spread(base, extra)) == Keys(base) + Appended(Keys(base), Keys(extra))
    decreases |extra|
  {
    if extra != [] {
      var n := |extra| - 1;
      var init := Spread(base, extra[..n]);
      SpreadKeyOrder(base, extra[..n]);
      PutKeys(init, extra[n].0, extra[n].1);
      assert Keys(extra)[..n] == Keys(extra[..n]);
      AppendedIn(Keys(base), Keys(extra[..n]), extra[n].0);
    }
  }

  /** Spreading keeps a dict's keys distinct. */
  lemma {:induction false} SpreadUnique(base: Fields, extra: Fields)
    requires UniqueKeys(base)
    ensures UniqueKeys(Spread(base, extra))
    decreases |extra|
  {
    if extra != [] {
      var n := |extra| - 1;
      SpreadUnique(base, extra[..n]);
      PutUnique(Spread(base, extra[..n]), extra[n].0, extra[n].1);
    }
  }

  /** The keys of Param.to_json, one per fixed field and per filtered
      question: the four fixed keys first, in order, then each filtered
      question's identifier that is not a fixed key, in order of first
      appearance, with no key twice. */
  lemma ParamObjectKeys(p: Param)
    requires p.byQuestion.Some?
    ensures ParamObject(p).Success?
    ensures Keys(ParamObject(p).value) == FixedKeys + Appended(FixedKeys, Ids(p.byQuestion.value))
    ensures UniqueKeys(ParamObject(p).value)
    ensures forall k :: k in Keys(ParamObject(p).value) <==> k in FixedKeys || k in Ids(p.byQuestion.value)
  {
    var filters := p.byQuestion.value;
    assert Keys(FixedFields(p)) == FixedKeys;
    SpreadKeyOrder(FixedFields(p), FilterFields(filters));
    FilterFieldsKeys(filters);
    AppendedTwice(FixedKeys, Ids(filters));
    SpreadUnique(FixedFields(p), FilterFields(filters));
    forall k ensures k in Appended(FixedKeys, Ids(filters)) <==> k !in FixedKeys && k in Ids(filters) {
      AppendedIn(FixedKeys, Ids(filters), k);
    }
  }

  /** The default Param() is accepted, but its to_json raises TypeError
      because `by_question` defaults to None. */
  lemma DefaultParamCannotSerialise()
    ensures NewParam(0, 20, None, None, None).Success?
    ensures ParamToJson(NewParam(0, 20, None, None, None).value) == Failure(TypeError)
  {
  }

  /** The sort order on the row identifier. */
  datatype Sort = Sort(id: string)

  /** Sort(should_desc): "desc" when `should_desc` is truthy, else "asc". */
  function NewSort(shouldDesc: Json): (s: Sort)
    ensures s.id == "desc" <==> Truthy(shouldDesc)
    ensures s.id == "asc" <==> !Truthy(shouldDesc)
  {
    Sort(if Truthy(shouldDesc) then "desc" else "asc")
  }

  /** Sort.to_json: the one-entry dict `{"id": id}` (a dict, not a string). */
  function SortToJson(s: Sort): (r: Json)
    ensures r.Obj? && Keys(r.fields) == ["id"] && Get(r.fields, "id") == Some(Str(s.id))
  {
    Obj([("id", Str(s.id))])
  }

  /** A query: one Param and one Sort, replaced through type-checked setters. */
  class Query {
    var param: Arg<Param>
    var sort: Arg<Sort>

    /** Query(param, sort) stores both arguments without checking them. */
    constructor (param: Arg<Param>, sort: Arg<Sort>)
      ensures GetParam() == param && GetSort() == sort
    {
      this.param := param;
      this.sort := sort;
    }

    function GetParam(): (r: Arg<Param>)
      reads this
      ensures r == param
    {
      param
    }

    function GetSort(): (r: Arg<Sort>)
      reads this
      ensures r == sort
    {
      sort
    }

    /** Query.set_param: raises TypeError unless given a Param, and then
        replaces the parameters only. */
    method SetParam(p: Arg<Param>) returns (r: Result<()>)
      modifies this
      ensures p.Other? ==> r == Failure(TypeError) && GetParam() == old(GetParam())
      ensures p.Instance? ==> r == Success(()) && GetParam() == p
      ensures GetSort() == old(GetSort())
    {
      if p.Other? {
        return Failure(TypeError);
      }
      param := p;
      return Success(());
    }

    /** Query.set_sort: raises TypeError unless given a Sort, and then
        replaces the sort order only. */
    method SetSort(s: Arg<Sort>) returns (r: Result<()>)
      modifies this
      ensures s.Other? ==> r == Failure(TypeError) && GetSort() == old(GetSort())
      ensures s.Instance? ==> r == Success(()) && GetSort() == s
      ensures GetParam() == old(GetParam())
    {
      if s.Other? {
        return Failure(TypeError);
      }
      sort := s;
      return Success(());
    }

    /** Query.to_json: a string encoding the dict with exactly the keys
        "params" and "sort", where "params" holds the string Param.to_json
        returns (so the parameters are encoded twice) and "sort" holds the
        dict Sort.to_json returns. A stored object that is not a Param or a
        Sort has no to_json (AttributeError); a Param without filters raises
        TypeError. */
    function ToJson(): (r: Result<Json>)
      reads this
      ensures param.Other? ==> r == Failure(AttributeError)
      ensures param.Instance? && param.value.byQuestion.None? ==> r == Failure(TypeError)
      ensures param.Instance? && param.value.byQuestion.Some? && sort.Other? ==> r == Failure(AttributeError)
      ensures r.Success? <==> param.Instance? && param.value.byQuestion.Some? && sort.Instance?
      ensures r.Success? ==>
        && r.value.Text? && r.value.doc.Obj?
        && Keys(r.value.doc.fields) == ["params", "sort"]
        && Get(r.value.doc.fields, "params") == Some(Text(Obj(ParamObject(param.value).value)))
        && Get(r.value.doc.fields, "sort") == Some(SortToJson(sort.value))
    {
      match param
      case Other => Failure(AttributeError)
      case Instance(p) =>
        var params :- ParamToJson(p);
        match sort
        case Other => Failure(AttributeError)
        case Instance(s) => Success(Text(Obj([("params", params), ("sort", SortToJson(s))])))
    }
  }
}
