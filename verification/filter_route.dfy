/**
 * `GET /api/orders/filter`: with no query parameter at all, every stored
 * document; otherwise the documents whose name contains the `term`
 * parameter, or whose phone contains the term's digits, both compared
 * ignoring case.
 */
module FilterRoute {
  import opened Wrappers
  import opened Json
  import opened Strings
  import opened OrderRules
  import opened OrdersRoute
  import PhoneFormat

  /** The query string's parameters, in order. */
  type Query = seq<(string, string)>

  /** `searchParams.get(name)`: the first value given for `name`. */
  function GetParam(query: Query, name: string): (r: Option<string>)
    ensures r.Some? <==> exists i | 0 <= i < |query| :: query[i].0 == name
    ensures r.Some? ==> exists i | 0 <= i < |query| ::
      query[i] == (name, r.value) && forall j | 0 <= j < i :: query[j].0 != name
  {
    if query == [] then None
    else if query[0].0 == name then Some(query[0].1)
    else
      FirstValueAfterOthers(query, name, GetParam(query[1..], name));
      GetParam(query[1..], name)
  }

  /** A first value for `name` after the first parameter, which has another name, is a first value in the whole query. */
  lemma FirstValueAfterOthers(query: Query, name: string, r: Option<string>)
    requires query != [] && query[0].0 != name
    requires r.Some? ==> exists i | 0 <= i < |query[1..]| ::
      query[1..][i] == (name, r.value) && forall j | 0 <= j < i :: query[1..][j].0 != name
    ensures r.Some? ==> exists i | 0 <= i < |query| ::
      query[i] == (name, r.value) && forall j | 0 <= j < i :: query[j].0 != name
  {
    if r.Some? {
      var i :| 0 <= i < |query[1..]| && query[1..][i] == (name, r.value)
        && forall j | 0 <= j < i :: query[1..][j].0 != name;
      assert query[i + 1] == (name, r.value);
      forall j | 0 <= j < i + 1 ensures query[j].0 != name {
        if j > 0 {
          assert query[j] == query[1..][j - 1];
        }
      }
    }
  }

  /** `searchParams.get("term") || undefined`: an empty term counts as no term. */
  function Term(query: Query): (r: Option<string>)
    ensures r.Some? ==> r.value != "" && GetParam(query, "term") == r
    ensures r.None? ==> GetParam(query, "term") in {None, Some("")}
  {
    match GetParam(query, "term")
    case Some(t) => if t == "" then None else Some(t)
    case None => None
  }

  /** The term as the schema receives it. */
  function TermValue(term: Option<string>): Value {
    match term
    case Some(t) => Str(t)
    case None => Undefined
  }

  /** Which match the filter applies: the handler's, or the one evidently intended. */
  datatype Matcher = AsWritten | Intended

  /** The name contains the term, ignoring case. */
  predicate NameMatches(o: StoredOrder, term: string) {
    o.data.fullName.Str? && Contains(Lower(o.data.fullName.s), Lower(term))
  }

  /**
   * The handler's condition: the name contains the term, or the phone as
   * stored contains the term's digits, ignoring case.
   */
  predicate Matches(o: StoredOrder, term: string) {
    NameMatches(o, term) || (o.data.phone.Str? && Contains(Lower(o.data.phone.s), Lower(Digits(term))))
  }

  /**
   * The intended condition: the name contains the term, or the term has
   * digits and the phone's digits contain them.
   */
  predicate IntendedMatch(o: StoredOrder, term: string) {
    NameMatches(o, term) || (Digits(term) != "" && o.data.phone.Str? && Contains(Digits(o.data.phone.s), Digits(term)))
  }

  predicate Selects(m: Matcher, o: StoredOrder, term: string) {
    match m
    case AsWritten => Matches(o, term)
    case Intended => IntendedMatch(o, term)
  }

  /** `a` is `b` with some entries removed, the rest in their order. */
  predicate SubList<T(==)>(a: seq<T>, b: seq<T>)
    decreases |b|
  {
    if b == [] then a == []
    else (a != [] && a[0] == b[0] && SubList(a[1..], b[1..])) || SubList(a, b[1..])
  }

  /** The documents the query selects, in store order. */
  function FilterOrders(m: Matcher, documents: seq<StoredOrder>, term: string): (r: seq<StoredOrder>)
    ensures forall o :: o in r <==> o in documents && Selects(m, o, term)
    ensures forall o :: multiset(r)[o] == if Selects(m, o, term) then multiset(documents)[o] else 0
    ensures SubList(r, documents)
  {
    if documents == [] then []
    else
      assert documents == [documents[0]] + documents[1..];
      if Selects(m, documents[0], term) then [documents[0]] + FilterOrders(m, documents[1..], term)
      else FilterOrders(m, documents[1..], term)
  }

  /**
   * The handler. `unfiltered` is what the store answers to the query whose
   * conditions are `contains: undefined`, which it runs when the query string
   * has parameters but no non-empty `term`; `failure` is an error the store
   * throws.
   */
  function HandleFilter(session: bool, query: Query, documents: seq<StoredOrder>,
                        unfiltered: seq<StoredOrder>, failure: Option<string>): (r: Response)
    ensures !session ==> r == Redirect("/")
    ensures session && failure.Some? ==> r == Json(500, ErrorJson(failure.value))
    ensures session && failure.None? ==> r.Json? && r.status == 200
    ensures session && failure.None? && query == [] ==> r.body == OrdersJson(documents)
    ensures session && failure.None? && query != [] && Term(query).None? ==> r.body == OrdersJson(unfiltered)
    ensures session && failure.None? && Term(query).Some? ==>
      r.body.OrdersJson? && SubList(r.body.orders, documents)
      && (forall o :: o in r.body.orders <==> o in documents && Matches(o, Term(query).value))
      && forall o :: multiset(r.body.orders)[o] == if Matches(o, Term(query).value) then multiset(documents)[o] else 0
  {
    if !session then Redirect("/")
    else if query == [] then
      (if failure.Some? then Json(500, ErrorJson(failure.value)) else Json(200, OrdersJson(documents)))
    else
      var term := Term(query);
      var issues := FilterIssues(TermValue(term));
      if issues != [] then Json(400, IssuesJson(issues))
      else if failure.Some? then Json(500, ErrorJson(failure.value))
      else if term.None? then Json(200, OrdersJson(unfiltered))
      else Json(200, OrdersJson(FilterOrders(AsWritten, documents, term.value)))
  }

  /** The empty pattern occurs in every string. */
  lemma ContainsEmpty(s: string)
    ensures Contains(s, "")
  {
    assert OccursAt(s, "", 0);
  }

  /** Every string contains itself. */
  lemma ContainsSelf(s: string)
    ensures Contains(s, s)
  {
    assert OccursAt(s, s, 0);
  }

  /** A term without digits gives an empty phone pattern, which every phone contains. */
  lemma DigitlessTermMatchesEveryPhone(o: StoredOrder, term: string)
    requires o.data.phone.Str? && Digits(term) == ""
    ensures Matches(o, term)
  {
    assert Lower(Digits(term)) == "";
    ContainsEmpty(Lower(o.data.phone.s));
  }

  /** So such a term returns the whole store, whatever the names. */
  lemma {:induction false} DigitlessTermReturnsAll(documents: seq<StoredOrder>, term: string)
    requires forall o | o in documents :: o.data.phone.Str?
    requires Digits(term) == ""
    ensures FilterOrders(AsWritten, documents, term) == documents
  {
    if documents != [] {
      DigitlessTermMatchesEveryPhone(documents[0], term);
      DigitlessTermReturnsAll(documents[1..], term);
    }
  }

  const Ana: StoredOrder := StoredOrder("1", "", EmptyPayload.(fullName := Str("Ana Silva"), phone := Str("11912345678")))
  const Beto: StoredOrder := StoredOrder("2", "", EmptyPayload.(fullName := Str("Beto Lopes"), phone := Str("21987654321")))

  /** Searching "ana" returns Beto Lopes too; the intended match returns only Ana Silva. */
  lemma SearchAnaReturnsBeto()
    ensures FilterOrders(AsWritten, [Ana, Beto], "ana") == [Ana, Beto]
    ensures FilterOrders(Intended, [Ana, Beto], "ana") == [Ana]
  {
    assert Digits("ana") == "";
    DigitlessTermReturnsAll([Ana, Beto], "ana");
    IntendedSearchAna();
  }

  lemma IntendedSearchAna()
    ensures FilterOrders(Intended, [Ana, Beto], "ana") == [Ana]
  {
    AnaNamedAna();
    BetoNotNamedAna();
    assert [Ana, Beto][1..] == [Beto];
    assert [Beto][1..] == [];
    assert FilterOrders(Intended, [Beto], "ana") == [];
  }

  lemma AnaNamedAna()
    ensures NameMatches(Ana, "ana")
  {
    assert Lower("ana") == "ana";
    assert Lower("Ana Silva")[0..3] == "ana";
    assert OccursAt(Lower("Ana Silva"), "ana", 0);
  }

  lemma BetoNotNamedAna()
    ensures !NameMatches(Beto, "ana")
  {
    assert Lower("ana") == "ana";
    forall j | OccursAt(Lower("Beto Lopes"), "ana", j) ensures false {
      OccursAtChar(Lower("Beto Lopes"), "ana", j, 0);
    }
  }

  /** The intended match selects on the name alone for a term without digits. */
  lemma IntendedDigitlessTerm(o: StoredOrder, term: string)
    requires Digits(term) == ""
    ensures IntendedMatch(o, term) <==> NameMatches(o, term)
  {
  }

  /** The intended match finds a phone by its digits, however the phone was typed. */
  lemma IntendedFindsPhoneByDigits(o: StoredOrder, term: string)
    requires o.data.phone.Str? && Digits(term) != "" && Digits(term) == Digits(o.data.phone.s)
    ensures IntendedMatch(o, term)
  {
    ContainsSelf(Digits(term));
  }

  /**
   * A phone stored as the input mask writes it, "(DD) D DDDD-DDDD", is not
   * found by its own eleven digits; the intended match finds it.
   */
  lemma MaskedPhoneNotFound(o: StoredOrder, d: string)
    requires |d| == 11 && AllDigits(d) && o.data.phone == Str(PhoneFormat.Template11(d))
    requires !NameMatches(o, d)
    ensures !Matches(o, d)
    ensures IntendedMatch(o, d)
  {
    DigitsOfDigits(d);
    PhoneFormat.Template11Digits(d);
    IntendedFindsPhoneByDigits(o, d);
    var s := Lower(PhoneFormat.Template11(d));
    var pat := Lower(d);
    assert PhoneFormat.Template11(d)[6] == ' ';
    forall j | OccursAt(s, pat, j) ensures false {
      OccursAtChar(s, pat, j, 6 - j);
    }
  }
}
