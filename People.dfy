/** Person records and the list view's free-text filter (src/PersonList.js, lines 42-48). */
module People {
  import opened Text

  datatype Option<+T> = None | Some(value: T)

  /** A person record as the list endpoint returns it and as the form edits it. Every field is kept as
      its string rendering; the empty string stands for a JS-falsy value (missing, null, ''). */
  datatype Person = Person(id: string, name: string, lastName: string, address: string,
                           gender: string, phoneNumber: string)

  /** `Object.values(person)`, in the record's key order. */
  function Values(p: Person): (vs: seq<string>)
    ensures |vs| == 6 && vs[0] == p.id
  {
    [p.id, p.name, p.lastName, p.address, p.gender, p.phoneNumber]
  }

  /** JS truthiness of a field value. */
  predicate Truthy(v: string)
    ensures Truthy(v) <==> |v| > 0
  {
    v != ""
  }

  /** The callback of `.some`: the value is truthy and, lowered, contains the lowered query. */
  predicate ValueMatches(v: string, query: string)
    ensures ValueMatches(v, query) ==> |query| <= |v|
  {
    Truthy(v) && Includes(Lower(v), Lower(query))
  }

  /** `values.some(...)`, scanning left to right. */
  function SomeValueMatches(values: seq<string>, query: string): (r: bool)
    ensures r <==> exists k :: 0 <= k < |values| && ValueMatches(values[k], query)
  {
    if values == [] then false
    else ValueMatches(values[0], query) || SomeValueMatches(values[1..], query)
  }

  /** The predicate `people.filter` keeps a record by. */
  predicate Matches(p: Person, query: string)
    ensures Matches(p, query) ==> HasTruthyField(p)
  {
    SomeValueMatches(Values(p), query)
  }

  /** The record has at least one truthy field. */
  predicate HasTruthyField(p: Person)
  {
    exists k :: 0 <= k < |Values(p)| && Truthy(Values(p)[k])
  }

  /** `a` is an order-preserving subsequence of `b`. */
  ghost predicate IsSubsequence<T>(a: seq<T>, b: seq<T>)
    decreases |b|
  {
    a == [] ||
    (b != [] && ((a[0] == b[0] && IsSubsequence(a[1..], b[1..])) || IsSubsequence(a, b[1..])))
  }

  /** `filteredList`: the records of `people` that match `query`, in their original order. */
  function FilterPeople(people: seq<Person>, query: string): (r: seq<Person>)
    ensures IsSubsequence(r, people)
    ensures forall p :: p in r <==> p in people && Matches(p, query)
    ensures (forall p :: p in people ==> !Matches(p, query)) ==> r == []
  {
    if people == [] then []
    else
      var rest := FilterPeople(people[1..], query);
      if Matches(people[0], query) then [people[0]] + rest else rest
  }

  /** Filtering distributes over concatenation, so together with the one-record case it determines
      the result exactly, duplicates included. */
  lemma {:induction false} FilterConcat(a: seq<Person>, b: seq<Person>, query: string)
    ensures FilterPeople(a + b, query) == FilterPeople(a, query) + FilterPeople(b, query)
    decreases |a|
  {
    if a == [] {
      assert a + b == b;
    } else {
      var ab := a + b;
      assert ab[0] == a[0] && ab[1..] == a[1..] + b;
      FilterConcat(a[1..], b, query);
      var head := if Matches(a[0], query) then [a[0]] else [];
      calc {
        FilterPeople(ab, query);
        head + FilterPeople(a[1..] + b, query);
        head + (FilterPeople(a[1..], query) + FilterPeople(b, query));
        (head + FilterPeople(a[1..], query)) + FilterPeople(b, query);
      }
    }
  }

  /** A single record is kept exactly when it matches. */
  lemma FilterSingle(p: Person, query: string)
    ensures FilterPeople([p], query) == if Matches(p, query) then [p] else []
  {
    assert [p][1..] == [];
  }

  /** Every string includes the empty string, so the empty query keeps exactly the records that have
      a truthy field. */
  lemma EmptyQueryMatches(p: Person)
    ensures Matches(p, "") <==> HasTruthyField(p)
  {
    assert Lower("") == "";
    forall v | Truthy(v)
      ensures ValueMatches(v, "")
    {
      assert OccursAt(Lower(v), "", 0);
    }
  }

  /** With an empty filter, the list is `people` with the records whose every field is falsy dropped,
      and it is all of `people` when each record has some truthy field. */
  lemma {:induction false} EmptyQueryFilter(people: seq<Person>)
    ensures forall p :: p in FilterPeople(people, "") <==> p in people && HasTruthyField(p)
    ensures (forall p :: p in people ==> HasTruthyField(p)) ==> FilterPeople(people, "") == people
    decreases |people|
  {
    forall p
      ensures Matches(p, "") <==> HasTruthyField(p)
    {
      EmptyQueryMatches(p);
    }
    if people != [] {
      EmptyQueryFilter(people[1..]);
      assert people == [people[0]] + people[1..];
    }
  }

  /** Matching ignores the case of the query: an upper-case query matches what its lower-case form does. */
  lemma QueryCaseIgnored(p: Person, query: string)
    ensures Matches(p, query) <==> Matches(p, Lower(query))
  {
    LowerIdempotent(query);
  }

  /** The query "MASCULINO" matches a record whose gender is "Masculino". */
  lemma UpperCaseQueryMatchesGender(p: Person)
    requires p.gender == "Masculino"
    ensures Matches(p, "MASCULINO")
  {
    var lowered := "masculino";
    assert Lower("Masculino") == lowered;
    assert Lower("MASCULINO") == lowered;
    assert lowered[0..|lowered|] == lowered;
    assert OccursAt(lowered, lowered, 0);
    assert ValueMatches(p.gender, "MASCULINO");
    assert Values(p)[4] == p.gender;
  }

  /** `items.find(person => person.id === id)`: the first record with that id, if any. */
  function FindById(items: seq<Person>, id: string): (r: Option<Person>)
    ensures r.None? <==> forall k :: 0 <= k < |items| ==> items[k].id != id
    ensures r.Some? ==> exists k :: 0 <= k < |items| && items[k] == r.value && r.value.id == id &&
                                    forall j :: 0 <= j < k ==> items[j].id != id
  {
    if items == [] then None
    else if items[0].id == id then Some(items[0])
    else
      var r := FindById(items[1..], id);
      assert r.Some? ==> exists k :: 1 <= k < |items| && items[k] == r.value && r.value.id == id &&
                                     forall j :: 1 <= j < k ==> items[j].id != id;
      r
  }
}
