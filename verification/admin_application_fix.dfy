/**
 * Reconciliation of a provider's machine records against the application
 * catalog (the `admin_application_fix` maintenance script).
 *
 * The pure layer states what the script computes: which applications a
 * catalog query returns, which image the provider lists for an identifier,
 * the category of each machine record, the action the fix list takes for an
 * identifier and the catalog after a fix. The class `FixSession` holds the
 * script's state (the two catalog tables, the global image cache and the
 * global `Force` flag) and its methods are proved against that layer.
 */
module AdminApplicationFix {
  import opened Wrappers

  type Identifier = string
  type Uuid = string
  type AppId = nat
  type ProviderId = nat

  /** One image as the provider's image service lists it. */
  datatype ProviderImage = ProviderImage(id: Identifier, name: string, isPublic: bool, properties: map<string, string>)

  /** An application row; rows are compared by their primary key `id`. */
  datatype Application = Application(id: AppId, uuid: Uuid, name: string, isPrivate: bool)

  /** A provider machine row and the application it is linked to. */
  datatype ProviderMachine = ProviderMachine(identifier: Identifier, provider: ProviderId, application: AppId)

  /** The five outcomes of the classifier. */
  datatype Category = Deleted | Incorrect | Create | NameMatch | Correct

  /** The five lists the classifier returns, in the order the script returns them. */
  datatype Buckets = Buckets(
    deleted: seq<ProviderMachine>,
    incorrect: seq<ProviderMachine>,
    create: seq<ProviderMachine>,
    nameMatch: seq<ProviderMachine>,
    correct: seq<ProviderMachine>)

  /** The two catalog tables the fixes change, and the next free application key. */
  datatype Catalog = Catalog(apps: seq<Application>, machines: seq<ProviderMachine>, nextAppId: AppId)

  /** Why a fix raises: no listed image, no or several machine rows, or a name the script never binds. */
  datatype FixError = ImageNotFound | RecordNotFound | MultipleRecords | NameUnbound(name: string)

  /** What the fix-list loop does with one identifier. */
  datatype Action = Skip(reason: Category) | Fix(reason: Category) | Warn

  datatype FixOutcome = FixOutcome(catalog: Catalog, app: AppId)

  /** The state after running a fix list: the catalog, one action per identifier handled, and the error that stopped the run, if any. */
  datatype FixRun = FixRun(catalog: Catalog, actions: seq<Action>, failure: Option<FixError>)

  // ---------------------------------------------------------------------
  // Catalog queries

  /** The two application queries the script issues: `filter(uuid=…)` and `filter(name=…)`. */
  datatype Lookup = ByUuid(uuid: Uuid) | ByName(name: string)

  predicate Matches(a: Application, q: Lookup) {
    match q
    case ByUuid(u) => a.uuid == u
    case ByName(n) => a.name == n
  }

  /** The applications a query returns, in table order. */
  function Filter(apps: seq<Application>, q: Lookup): (r: seq<Application>)
    ensures |r| <= |apps|
    ensures forall a :: a in r <==> a in apps && Matches(a, q)
  {
    if apps == [] then []
    else
      var n := |apps| - 1;
      Filter(apps[..n], q) + (if Matches(apps[n], q) then [apps[n]] else [])
  }

  /** A query that no row matches returns nothing. */
  lemma FilterEmpty(apps: seq<Application>, q: Lookup)
    requires forall j :: 0 <= j < |apps| ==> !Matches(apps[j], q)
    ensures Filter(apps, q) == []
  {
  }

  /** A query over a table whose first `k` rows all fail it finds nothing among them. */
  lemma FilterNoneMatching(apps: seq<Application>, q: Lookup, k: nat)
    requires k <= |apps|
    requires forall j :: 0 <= j < k ==> !Matches(apps[j], q)
    ensures Filter(apps[..k], q) == []
  {
    var init := apps[..k];
    forall j | 0 <= j < |init| ensures !Matches(init[j], q) {
      assert init[j] == apps[j];
    }
    FilterEmpty(init, q);
  }

  /** The first row a query returns is the first matching row of the table. */
  lemma {:induction false} FilterFirst(apps: seq<Application>, q: Lookup, k: nat)
    requires k < |apps| && Matches(apps[k], q)
    requires forall j :: 0 <= j < k ==> !Matches(apps[j], q)
    ensures Filter(apps, q) != [] && Filter(apps, q)[0] == apps[k]
  {
    var n := |apps| - 1;
    var init := apps[..n];
    var front := Filter(init, q);
    var tail := if Matches(apps[n], q) then [apps[n]] else [];
    assert Filter(apps, q) == front + tail;
    if n == k {
      assert front == [] by {
        FilterNoneMatching(apps, q, k);
      }
      assert tail == [apps[k]];
    } else {
      assert front != [] && front[0] == apps[k] by {
        assert k < n && init[k] == apps[k];
        forall j | 0 <= j < k ensures !Matches(init[j], q) {
          assert init[j] == apps[j];
        }
        FilterFirst(init, q, k);
      }
      assert (front + tail)[0] == front[0];
    }
  }

  /** Appending a row to the table appends it to the result of every query it matches. */
  lemma FilterAppend(apps: seq<Application>, a: Application, q: Lookup)
    ensures Filter(apps + [a], q) == Filter(apps, q) + (if Matches(a, q) then [a] else [])
  {
    assert (apps + [a])[..|apps|] == apps;
  }

  /** `ProviderMachine.objects.filter(provider=…)`, in table order. */
  function OfProvider(ms: seq<ProviderMachine>, p: ProviderId): (r: seq<ProviderMachine>)
    ensures forall m :: m in r <==> m in ms && m.provider == p
  {
    if ms == [] then []
    else OfProvider(ms[..|ms| - 1], p) + (if ms[|ms| - 1].provider == p then [ms[|ms| - 1]] else [])
  }

  // ---------------------------------------------------------------------
  // The image cache

  /** The index of the first image with the given id, or the length of the list when there is none. */
  function FirstImageIndex(images: seq<ProviderImage>, id: Identifier): (k: nat)
    ensures k <= |images|
    ensures forall j :: 0 <= j < k ==> images[j].id != id
    ensures k < |images| ==> images[k].id == id
  {
    if images == [] then 0
    else if images[0].id == id then 0
    else 1 + FirstImageIndex(images[1..], id)
  }

  /** What `get_image` returns on a given cache: the first listed image with that id, or nothing. */
  function FindImage(images: seq<ProviderImage>, id: Identifier): (r: Option<ProviderImage>)
    ensures r.None? <==> forall j :: 0 <= j < |images| ==> images[j].id != id
    ensures r.Some? ==> r.value.id == id && r.value in images
  {
    var k := FirstImageIndex(images, id);
    if k < |images| then Some(images[k]) else None
  }

  /** The cache `get_image` reads: the cached list, refilled from the provider only when empty. */
  function Snapshot(cache: seq<ProviderImage>, upstream: seq<ProviderImage>): (r: seq<ProviderImage>)
    ensures r == cache || r == upstream
    ensures cache != [] ==> r == cache
    ensures r == [] <==> cache == [] && upstream == []
  {
    if cache == [] then upstream else cache
  }

  // ---------------------------------------------------------------------
  // Classification

  /** The category of one machine record, decided as the classifier's loop body decides it. */
  function Classify(derive: Identifier -> Uuid, apps: seq<Application>, snap: seq<ProviderImage>, pm: ProviderMachine): Category
  {
    var byUuid := Filter(apps, ByUuid(derive(pm.identifier)));
    if byUuid == [] then
      match FindImage(snap, pm.identifier)
      case None => Deleted
      case Some(img) =>
        var byName := Filter(apps, ByName(img.name));
        if byName == [] then Create
        else if byName[0].id == pm.application then NameMatch
        else Incorrect
    else if byUuid[0].id == pm.application then Correct
    else Incorrect
  }

  /** Row `k` is the first row of the table that the query matches. */
  ghost predicate FirstMatch(apps: seq<Application>, q: Lookup, k: int) {
    0 <= k < |apps| && Matches(apps[k], q) && forall j :: 0 <= j < k ==> !Matches(apps[j], q)
  }

  /** No row of the table matches the query. */
  ghost predicate NoMatch(apps: seq<Application>, q: Lookup) {
    forall j :: 0 <= j < |apps| ==> !Matches(apps[j], q)
  }

  /** Image `i` is the first listed image with the identifier. */
  ghost predicate FirstImage(snap: seq<ProviderImage>, id: Identifier, i: int) {
    0 <= i < |snap| && snap[i].id == id && forall j :: 0 <= j < i ==> snap[j].id != id
  }

  /** The index of the first row the query matches, or the length of the table when none does. */
  function FirstMatchIndex(apps: seq<Application>, q: Lookup): (k: nat)
    ensures k <= |apps|
    ensures forall j :: 0 <= j < k ==> !Matches(apps[j], q)
    ensures k < |apps| ==> Matches(apps[k], q)
  {
    if apps == [] then 0
    else if Matches(apps[0], q) then 0
    else 1 + FirstMatchIndex(apps[1..], q)
  }

  /** A query returns nothing exactly when no row matches, and otherwise starts with the first matching row. */
  lemma FilterHead(apps: seq<Application>, q: Lookup)
    ensures Filter(apps, q) == [] <==> NoMatch(apps, q)
    ensures Filter(apps, q) != [] ==> FirstMatch(apps, q, FirstMatchIndex(apps, q)) && Filter(apps, q)[0] == apps[FirstMatchIndex(apps, q)]
    ensures forall k :: FirstMatch(apps, q, k) ==> k == FirstMatchIndex(apps, q)
  {
    var k := FirstMatchIndex(apps, q);
    if k < |apps| {
      FilterFirst(apps, q, k);
    } else {
      FilterEmpty(apps, q);
    }
  }

  /**
   * Each category over table positions. Correct: some first application with
   * the derived UUID is the linked one. Create: no application has the UUID,
   * some first listed image carries the identifier, and no application has
   * its name. Name match: no application has the UUID, and the first
   * application named after the first listed image is the linked one.
   */
  lemma ClassifyCases(derive: Identifier -> Uuid, apps: seq<Application>, snap: seq<ProviderImage>, pm: ProviderMachine)
    ensures Classify(derive, apps, snap, pm) == Correct <==>
      exists k :: FirstMatch(apps, ByUuid(derive(pm.identifier)), k) && apps[k].id == pm.application
    ensures Classify(derive, apps, snap, pm) == Create <==>
      NoMatch(apps, ByUuid(derive(pm.identifier))) &&
      exists i :: FirstImage(snap, pm.identifier, i) && NoMatch(apps, ByName(snap[i].name))
    ensures Classify(derive, apps, snap, pm) == NameMatch <==>
      NoMatch(apps, ByUuid(derive(pm.identifier))) &&
      exists i, k :: FirstImage(snap, pm.identifier, i) && FirstMatch(apps, ByName(snap[i].name), k) && apps[k].id == pm.application
  {
    var u := ByUuid(derive(pm.identifier));
    FilterHead(apps, u);
    var i := FirstImageIndex(snap, pm.identifier);
    assert forall i' :: FirstImage(snap, pm.identifier, i') ==> i' == i;
    if i < |snap| {
      assert FirstImage(snap, pm.identifier, i);
      assert FindImage(snap, pm.identifier) == Some(snap[i]);
      FilterHead(apps, ByName(snap[i].name));
    }
  }

  /** The records of `ms` in category `c`, in the order of `ms`. */
  function InCategory(derive: Identifier -> Uuid, apps: seq<Application>, snap: seq<ProviderImage>, ms: seq<ProviderMachine>, c: Category): seq<ProviderMachine> {
    if ms == [] then []
    else
      var last := ms[|ms| - 1];
      InCategory(derive, apps, snap, ms[..|ms| - 1], c) + (if Classify(derive, apps, snap, last) == c then [last] else [])
  }

  /** The list of category `c`. */
  function Bucket(b: Buckets, c: Category): seq<ProviderMachine> {
    match c
    case Deleted => b.deleted
    case Incorrect => b.incorrect
    case Create => b.create
    case NameMatch => b.nameMatch
    case Correct => b.correct
  }

  /** The five lists of the classifier: each holds exactly the input records of its category. */
  function Classification(derive: Identifier -> Uuid, apps: seq<Application>, snap: seq<ProviderImage>, ms: seq<ProviderMachine>): (r: Buckets)
    ensures forall c: Category, m :: m in Bucket(r, c) <==> m in ms && Classify(derive, apps, snap, m) == c
  {
    InCategoryMembers(derive, apps, snap, ms);
    Buckets(
      InCategory(derive, apps, snap, ms, Deleted),
      InCategory(derive, apps, snap, ms, Incorrect),
      InCategory(derive, apps, snap, ms, Create),
      InCategory(derive, apps, snap, ms, NameMatch),
      InCategory(derive, apps, snap, ms, Correct))
  }

  /** A UUID match decides the category: correct when the first application with that UUID is the linked one, incorrect otherwise. */
  lemma ClassifyByUuid(derive: Identifier -> Uuid, apps: seq<Application>, snap: seq<ProviderImage>, pm: ProviderMachine, k: nat)
    requires k < |apps| && apps[k].uuid == derive(pm.identifier)
    requires forall j :: 0 <= j < k ==> apps[j].uuid != derive(pm.identifier)
    ensures Classify(derive, apps, snap, pm) == if apps[k].id == pm.application then Correct else Incorrect
  {
    FilterFirst(apps, ByUuid(derive(pm.identifier)), k);
  }

  /** A record is deleted exactly when no application has its UUID and the provider does not list its image. */
  lemma ClassifyDeletedIff(derive: Identifier -> Uuid, apps: seq<Application>, snap: seq<ProviderImage>, pm: ProviderMachine)
    ensures Classify(derive, apps, snap, pm) == Deleted <==>
      (forall j :: 0 <= j < |apps| ==> apps[j].uuid != derive(pm.identifier)) &&
      (forall j :: 0 <= j < |snap| ==> snap[j].id != pm.identifier)
  {
    var byUuid := Filter(apps, ByUuid(derive(pm.identifier)));
    if byUuid == [] {
      forall j | 0 <= j < |apps| ensures apps[j].uuid != derive(pm.identifier) {
        assert apps[j] in apps;
      }
    } else {
      assert byUuid[0] in byUuid;
    }
  }

  /** Without a UUID match, a listed image decides by its name: create when no application has the name, name-match when the first one with the name is the linked one, incorrect otherwise. */
  lemma ClassifyByName(derive: Identifier -> Uuid, apps: seq<Application>, snap: seq<ProviderImage>, pm: ProviderMachine, i: nat)
    requires forall j :: 0 <= j < |apps| ==> apps[j].uuid != derive(pm.identifier)
    requires i < |snap| && snap[i].id == pm.identifier
    requires forall j :: 0 <= j < i ==> snap[j].id != pm.identifier
    ensures (forall j :: 0 <= j < |apps| ==> apps[j].name != snap[i].name) ==> Classify(derive, apps, snap, pm) == Create
    ensures forall k :: 0 <= k < |apps| && apps[k].name == snap[i].name && (forall j :: 0 <= j < k ==> apps[j].name != snap[i].name) ==>
      Classify(derive, apps, snap, pm) == if apps[k].id == pm.application then NameMatch else Incorrect
  {
    FilterEmpty(apps, ByUuid(derive(pm.identifier)));
    assert FirstImageIndex(snap, pm.identifier) == i;
    var byName := Filter(apps, ByName(snap[i].name));
    if byName != [] {
      assert byName[0] in byName;
    }
    forall k | 0 <= k < |apps| && apps[k].name == snap[i].name && (forall j :: 0 <= j < k ==> apps[j].name != snap[i].name)
      ensures Classify(derive, apps, snap, pm) == if apps[k].id == pm.application then NameMatch else Incorrect
    {
      FilterFirst(apps, ByName(snap[i].name), k);
    }
  }

  /** Extending the input extends every list at its end: no list is re-sorted. */
  lemma {:induction false} InCategoryAppend(derive: Identifier -> Uuid, apps: seq<Application>, snap: seq<ProviderImage>, a: seq<ProviderMachine>, b: seq<ProviderMachine>, c: Category)
    ensures InCategory(derive, apps, snap, a + b, c) == InCategory(derive, apps, snap, a, c) + InCategory(derive, apps, snap, b, c)
  {
    if b == [] {
      assert a + b == a;
    } else {
      var n := |b| - 1;
      var last := if Classify(derive, apps, snap, b[n]) == c then [b[n]] else [];
      assert InCategory(derive, apps, snap, a + b, c) == InCategory(derive, apps, snap, a + b[..n], c) + last by {
        assert (a + b)[..|a + b| - 1] == a + b[..n];
        assert (a + b)[|a + b| - 1] == b[n];
      }
      InCategoryAppend(derive, apps, snap, a, b[..n], c);
      var x, y := InCategory(derive, apps, snap, a, c), InCategory(derive, apps, snap, b[..n], c);
      assert (x + y) + last == x + (y + last);
    }
  }

  /** A record is in the list of category `c` exactly when it is one of the inputs and its category is `c`. */
  lemma {:induction false} InCategoryMembership(derive: Identifier -> Uuid, apps: seq<Application>, snap: seq<ProviderImage>, ms: seq<ProviderMachine>, c: Category, m: ProviderMachine)
    ensures m in InCategory(derive, apps, snap, ms, c) <==> m in ms && Classify(derive, apps, snap, m) == c
  {
    if ms != [] {
      var n := |ms| - 1;
      InCategoryMembership(derive, apps, snap, ms[..n], c, m);
      SplitLast(ms);
    }
  }

  /** A non-empty sequence is its prefix followed by its last element, as a sequence and as a multiset. */
  lemma SplitLast<T>(s: seq<T>)
    requires s != []
    ensures s == s[..|s| - 1] + [s[|s| - 1]]
    ensures multiset(s) == multiset(s[..|s| - 1]) + multiset{s[|s| - 1]}
    ensures forall x :: x in s <==> x in s[..|s| - 1] || x == s[|s| - 1]
  {
    assert s == s[..|s| - 1] + [s[|s| - 1]];
  }

  /** Membership in every list at once. */
  lemma InCategoryMembers(derive: Identifier -> Uuid, apps: seq<Application>, snap: seq<ProviderImage>, ms: seq<ProviderMachine>)
    ensures forall c: Category, m :: m in InCategory(derive, apps, snap, ms, c) <==> m in ms && Classify(derive, apps, snap, m) == c
  {
    forall c: Category
      ensures forall m :: m in InCategory(derive, apps, snap, ms, c) <==> m in ms && Classify(derive, apps, snap, m) == c
    {
      forall m
        ensures m in InCategory(derive, apps, snap, ms, c) <==> m in ms && Classify(derive, apps, snap, m) == c
      {
        InCategoryMembership(derive, apps, snap, ms, c, m);
      }
    }
  }

  /** Classifying one more record extends the list of its category by that record and leaves the other lists as they were. */
  lemma InCategoryStep(derive: Identifier -> Uuid, apps: seq<Application>, snap: seq<ProviderImage>, ms: seq<ProviderMachine>, i: nat, c: Category)
    requires i < |ms|
    ensures InCategory(derive, apps, snap, ms[..i + 1], c) ==
      InCategory(derive, apps, snap, ms[..i], c) + (if Classify(derive, apps, snap, ms[i]) == c then [ms[i]] else [])
  {
    assert ms[..i + 1][..i] == ms[..i];
    assert ms[..i + 1][i] == ms[i];
  }

  /** All records of the five lists, counted with multiplicity. */
  function BucketsMultiset(b: Buckets): multiset<ProviderMachine> {
    multiset(b.deleted) + multiset(b.incorrect) + multiset(b.create) + multiset(b.nameMatch) + multiset(b.correct)
  }

  /** Appending a record to one of the five lists adds exactly that record to their union. */
  lemma AppendToOneBucket(b: Buckets, x: ProviderMachine, c: Category)
    ensures BucketsMultiset(AppendTo(b, x, c)) == BucketsMultiset(b) + multiset{x}
  {
  }

  /** The lists with `x` appended to the one of category `c`. */
  function AppendTo(b: Buckets, x: ProviderMachine, c: Category): Buckets {
    match c
    case Deleted => b.(deleted := b.deleted + [x])
    case Incorrect => b.(incorrect := b.incorrect + [x])
    case Create => b.(create := b.create + [x])
    case NameMatch => b.(nameMatch := b.nameMatch + [x])
    case Correct => b.(correct := b.correct + [x])
  }

  /** Classifying one more record appends it to the list of its category. */
  lemma ClassificationStep(derive: Identifier -> Uuid, apps: seq<Application>, snap: seq<ProviderImage>, ms: seq<ProviderMachine>, i: nat)
    requires i < |ms|
    ensures Classification(derive, apps, snap, ms[..i + 1]) ==
      AppendTo(Classification(derive, apps, snap, ms[..i]), ms[i], Classify(derive, apps, snap, ms[i]))
  {
    InCategoryStep(derive, apps, snap, ms, i, Deleted);
    InCategoryStep(derive, apps, snap, ms, i, Incorrect);
    InCategoryStep(derive, apps, snap, ms, i, Create);
    InCategoryStep(derive, apps, snap, ms, i, NameMatch);
    InCategoryStep(derive, apps, snap, ms, i, Correct);
  }

  /** Classifying a non-empty input appends its last record to the list of that record's category. */
  lemma ClassificationLast(derive: Identifier -> Uuid, apps: seq<Application>, snap: seq<ProviderImage>, ms: seq<ProviderMachine>)
    requires ms != []
    ensures var n := |ms| - 1;
      Classification(derive, apps, snap, ms) ==
        AppendTo(Classification(derive, apps, snap, ms[..n]), ms[n], Classify(derive, apps, snap, ms[n]))
  {
    var n := |ms| - 1;
    var before := Classification(derive, apps, snap, ms[..n]);
    var c := Classify(derive, apps, snap, ms[n]);
    assert Classification(derive, apps, snap, ms) == Buckets(
      before.deleted + (if c == Deleted then [ms[n]] else []),
      before.incorrect + (if c == Incorrect then [ms[n]] else []),
      before.create + (if c == Create then [ms[n]] else []),
      before.nameMatch + (if c == NameMatch then [ms[n]] else []),
      before.correct + (if c == Correct then [ms[n]] else []));
  }

  /** Every record of the input is put in exactly one of the five lists: together they are the input, counted with multiplicity. */
  lemma {:induction false} ClassificationPartitions(derive: Identifier -> Uuid, apps: seq<Application>, snap: seq<ProviderImage>, ms: seq<ProviderMachine>)
    ensures BucketsMultiset(Classification(derive, apps, snap, ms)) == multiset(ms)
  {
    if ms != [] {
      var n := |ms| - 1;
      ClassificationPartitions(derive, apps, snap, ms[..n]);
      ClassificationLast(derive, apps, snap, ms);
      AppendToOneBucket(Classification(derive, apps, snap, ms[..n]), ms[n], Classify(derive, apps, snap, ms[n]));
      SplitLast(ms);
    }
  }

  // ---------------------------------------------------------------------
  // The fix-list dispatch

  /** Whether some record of a list carries the identifier. */
  predicate HasIdentifier(list: seq<ProviderMachine>, id: Identifier) {
    exists k :: 0 <= k < |list| && list[k].identifier == id
  }

  /** The remediation each category calls for: deleted and correct records are left alone, a name match only when forced, the rest are re-linked by UUID. */
  function ActionFor(c: Category, force: bool): Action {
    match c
    case Deleted => Skip(Deleted)
    case Correct => Skip(Correct)
    case NameMatch => if force then Fix(NameMatch) else Skip(NameMatch)
    case Create => Fix(Create)
    case Incorrect => Fix(Incorrect)
  }

  /** The action the fix-list loop takes for one identifier, with membership tested by identifier. */
  function Dispatch(b: Buckets, force: bool, id: Identifier): (r: Action)
    ensures r.Fix? <==>
      !HasIdentifier(b.deleted, id) && !HasIdentifier(b.correct, id) &&
      (HasIdentifier(b.nameMatch, id) ==> force) &&
      (HasIdentifier(b.nameMatch, id) || HasIdentifier(b.create, id) || HasIdentifier(b.incorrect, id))
    ensures r.Warn? <==>
      !HasIdentifier(b.deleted, id) && !HasIdentifier(b.correct, id) && !HasIdentifier(b.nameMatch, id) &&
      !HasIdentifier(b.create, id) && !HasIdentifier(b.incorrect, id)
    ensures HasIdentifier(b.deleted, id) ==> r == Skip(Deleted)
    ensures r == Skip(NameMatch) ==> !force
  {
    if HasIdentifier(b.deleted, id) then Skip(Deleted)
    else if HasIdentifier(b.correct, id) then Skip(Correct)
    else if HasIdentifier(b.nameMatch, id) then (if force then Fix(NameMatch) else Skip(NameMatch))
    else if HasIdentifier(b.create, id) then Fix(Create)
    else if HasIdentifier(b.incorrect, id) then Fix(Incorrect)
    else Warn
  }

  /** Identifiers are unique among a provider's machine records. */
  predicate UniqueIdentifiers(ms: seq<ProviderMachine>) {
    forall i, j :: 0 <= i < j < |ms| ==> ms[i].identifier != ms[j].identifier
  }

  lemma HasIdentifierInCategory(derive: Identifier -> Uuid, apps: seq<Application>, snap: seq<ProviderImage>, ms: seq<ProviderMachine>, c: Category, m: ProviderMachine)
    requires UniqueIdentifiers(ms) && m in ms
    ensures HasIdentifier(InCategory(derive, apps, snap, ms, c), m.identifier) <==> Classify(derive, apps, snap, m) == c
  {
    var list := InCategory(derive, apps, snap, ms, c);
    if HasIdentifier(list, m.identifier) {
      var k :| 0 <= k < |list| && list[k].identifier == m.identifier;
      InCategoryMembership(derive, apps, snap, ms, c, list[k]);
      var i :| 0 <= i < |ms| && ms[i] == list[k];
      var j :| 0 <= j < |ms| && ms[j] == m;
      assert i == j;
    }
    if Classify(derive, apps, snap, m) == c {
      InCategoryMembership(derive, apps, snap, ms, c, m);
      var k :| 0 <= k < |list| && list[k] == m;
      assert list[k].identifier == m.identifier;
    }
  }

  /** On the classifier's own lists, the dispatch of a record's identifier is the remediation its category calls for. */
  lemma DispatchFollowsCategory(derive: Identifier -> Uuid, apps: seq<Application>, snap: seq<ProviderImage>, ms: seq<ProviderMachine>, force: bool, m: ProviderMachine)
    requires UniqueIdentifiers(ms) && m in ms
    ensures Dispatch(Classification(derive, apps, snap, ms), force, m.identifier) == ActionFor(Classify(derive, apps, snap, m), force)
  {
    HasIdentifierInCategory(derive, apps, snap, ms, Deleted, m);
    HasIdentifierInCategory(derive, apps, snap, ms, Incorrect, m);
    HasIdentifierInCategory(derive, apps, snap, ms, Create, m);
    HasIdentifierInCategory(derive, apps, snap, ms, NameMatch, m);
    HasIdentifierInCategory(derive, apps, snap, ms, Correct, m);
  }

  /** An identifier that no record of the provider carries only draws a warning. */
  lemma DispatchWarnsUnknown(derive: Identifier -> Uuid, apps: seq<Application>, snap: seq<ProviderImage>, ms: seq<ProviderMachine>, force: bool, id: Identifier)
    requires forall j :: 0 <= j < |ms| ==> ms[j].identifier != id
    ensures Dispatch(Classification(derive, apps, snap, ms), force, id) == Warn
  {
    var b := Classification(derive, apps, snap, ms);
    forall c: Category ensures !HasIdentifier(InCategory(derive, apps, snap, ms, c), id) {
      var list := InCategory(derive, apps, snap, ms, c);
      forall k | 0 <= k < |list| ensures list[k].identifier != id {
        InCategoryMembership(derive, apps, snap, ms, c, list[k]);
        assert list[k] in list;
      }
    }
    assert !HasIdentifier(b.deleted, id) && !HasIdentifier(b.incorrect, id) && !HasIdentifier(b.create, id);
    assert !HasIdentifier(b.nameMatch, id) && !HasIdentifier(b.correct, id);
  }

  // ---------------------------------------------------------------------
  // Applying one fix

  predicate IsRecordOf(m: ProviderMachine, p: ProviderId, id: Identifier) {
    m.provider == p && m.identifier == id
  }

  /** The indices of the rows `ProviderMachine.objects.get(provider=…, identifier=…)` would see, ascending. */
  function RecordIndices(ms: seq<ProviderMachine>, p: ProviderId, id: Identifier): (r: seq<nat>)
    ensures forall k: nat :: k in r <==> k < |ms| && IsRecordOf(ms[k], p, id)
    ensures forall a, b :: 0 <= a < b < |r| ==> r[a] < r[b]
    ensures forall a :: 0 <= a < |r| ==> r[a] < |ms|
  {
    if ms == [] then []
    else
      var n := |ms| - 1;
      RecordIndices(ms[..n], p, id) + (if IsRecordOf(ms[n], p, id) then [n] else [])
  }

  /** `get` on the machine table: the one matching row, or the error `get` raises. */
  function FindMachine(ms: seq<ProviderMachine>, p: ProviderId, id: Identifier): (r: Result<nat, FixError>)
    ensures r.Ok? ==>
      r.value < |ms| && IsRecordOf(ms[r.value], p, id) &&
      (forall j :: 0 <= j < |ms| && IsRecordOf(ms[j], p, id) ==> j == r.value)
    ensures r != Err(ImageNotFound)
  {
    var idx := RecordIndices(ms, p, id);
    if |idx| == 0 then Err(RecordNotFound)
    else if |idx| == 1 then
      assert forall j :: 0 <= j < |ms| && IsRecordOf(ms[j], p, id) ==> j in idx;
      Ok(idx[0])
    else Err(MultipleRecords)
  }

  /** `get` raises "does not exist" exactly when no row matches, and "multiple objects returned" exactly when two rows do. */
  lemma FindMachineErrors(ms: seq<ProviderMachine>, p: ProviderId, id: Identifier)
    ensures FindMachine(ms, p, id) == Err(RecordNotFound) <==> forall j :: 0 <= j < |ms| ==> !IsRecordOf(ms[j], p, id)
    ensures FindMachine(ms, p, id) == Err(MultipleRecords) <==>
      exists i, j :: 0 <= i < j < |ms| && IsRecordOf(ms[i], p, id) && IsRecordOf(ms[j], p, id)
  {
    var idx := RecordIndices(ms, p, id);
    assert forall j :: 0 <= j < |ms| && IsRecordOf(ms[j], p, id) ==> j in idx;
    if |idx| >= 2 {
      assert idx[0] in idx && idx[1] in idx;
    }
  }

  /** Only the identifier and provider of each row decide `FindMachine`, not the links. */
  lemma {:induction false} RecordIndicesSameKeys(ms: seq<ProviderMachine>, ms': seq<ProviderMachine>, p: ProviderId, id: Identifier)
    requires |ms| == |ms'|
    requires forall j :: 0 <= j < |ms| ==> ms[j].identifier == ms'[j].identifier && ms[j].provider == ms'[j].provider
    ensures RecordIndices(ms, p, id) == RecordIndices(ms', p, id)
  {
    if ms != [] {
      var n := |ms| - 1;
      RecordIndicesSameKeys(ms[..n], ms'[..n], p, id);
    }
  }

  /**
   * `_apply_fix` on the catalog: look the image up in the cache, get the
   * machine row, take the first application with the derived UUID or create
   * one named after the image, and link the machine to it.
   */
  function ApplyFixSpec(derive: Identifier -> Uuid, cat: Catalog, snap: seq<ProviderImage>, p: ProviderId, id: Identifier): Result<FixOutcome, FixError> {
    match FindImage(snap, id)
    case None => Err(ImageNotFound)
    case Some(img) =>
      match FindMachine(cat.machines, p, id)
      case Err(e) => Err(e)
      case Ok(k) => Ok(Relink(cat, k, derive(id), img))
  }

  /** A fix fails for a missing image exactly when the cache has none with the identifier, and for a missing record exactly when the image is there but the provider has no record with the identifier. */
  lemma ApplyFixErrors(derive: Identifier -> Uuid, cat: Catalog, snap: seq<ProviderImage>, p: ProviderId, id: Identifier)
    ensures var r := ApplyFixSpec(derive, cat, snap, p, id);
      r == Err(ImageNotFound) <==> forall j :: 0 <= j < |snap| ==> snap[j].id != id
    ensures var r := ApplyFixSpec(derive, cat, snap, p, id);
      r == Err(RecordNotFound) <==>
        (exists j :: 0 <= j < |snap| && snap[j].id == id) &&
        forall j :: 0 <= j < |cat.machines| ==> !IsRecordOf(cat.machines[j], p, id)
  {
    FindMachineErrors(cat.machines, p, id);
    if FindImage(snap, id).Some? {
      var j := FirstImageIndex(snap, id);
      assert j < |snap| && snap[j].id == id;
    }
  }

  /** The catalog change of a fix that found its image and its record `k`: reuse or create the application with UUID `u`, then link the record to it. */
  function Relink(cat: Catalog, k: nat, u: Uuid, img: ProviderImage): (r: FixOutcome)
    requires k < |cat.machines|
    ensures |r.catalog.machines| == |cat.machines|
    ensures r.catalog.machines[k] == cat.machines[k].(application := r.app)
    ensures var byUuid := Filter(r.catalog.apps, ByUuid(u));
      byUuid != [] && byUuid[0].id == r.app
  {
    var byUuid := Filter(cat.apps, ByUuid(u));
    if byUuid == [] then
      var app := Application(cat.nextAppId, u, img.name, !img.isPublic);
      FilterAppend(cat.apps, app, ByUuid(u));
      FixOutcome(Catalog(cat.apps + [app], cat.machines[k := cat.machines[k].(application := app.id)], cat.nextAppId + 1), app.id)
    else
      var app := byUuid[0];
      FixOutcome(Catalog(cat.apps, cat.machines[k := cat.machines[k].(application := app.id)], cat.nextAppId), app.id)
  }

  /** Some row of the application table has key `a`. */
  ghost predicate HasApplication(apps: seq<Application>, a: AppId) {
    exists i :: 0 <= i < |apps| && apps[i].id == a
  }

  /**
   * Application keys are below the next free key and pairwise distinct, and
   * every machine record links to an application that exists (the foreign key
   * from a machine row to its application).
   */
  ghost predicate CatalogValid(c: Catalog) {
    (forall i :: 0 <= i < |c.apps| ==> c.apps[i].id < c.nextAppId) &&
    (forall i, j :: 0 <= i < j < |c.apps| ==> c.apps[i].id != c.apps[j].id) &&
    (forall m :: m in c.machines ==> HasApplication(c.apps, m.application))
  }

  /** A fix changes only the link of the one matching record, and keeps the catalog invariant: keys distinct and below the next free key, every record linked to an existing application. */
  lemma ApplyFixFrame(derive: Identifier -> Uuid, cat: Catalog, snap: seq<ProviderImage>, p: ProviderId, id: Identifier)
    requires ApplyFixSpec(derive, cat, snap, p, id).Ok?
    ensures FindMachine(cat.machines, p, id).Ok?
    ensures var o := ApplyFixSpec(derive, cat, snap, p, id).value;
      var k := FindMachine(cat.machines, p, id).value;
      |o.catalog.machines| == |cat.machines| &&
      IsRecordOf(cat.machines[k], p, id) &&
      o.catalog.machines[k] == cat.machines[k].(application := o.app) &&
      (forall j :: 0 <= j < |cat.machines| && j != k ==> o.catalog.machines[j] == cat.machines[j])
    ensures CatalogValid(cat) ==> CatalogValid(ApplyFixSpec(derive, cat, snap, p, id).value.catalog)
  {
    var k := FindMachine(cat.machines, p, id).value;
    assert ApplyFixSpec(derive, cat, snap, p, id).value == Relink(cat, k, derive(id), FindImage(snap, id).value);
    RelinkFrame(cat, k, derive(id), FindImage(snap, id).value);
  }

  /** Re-linking a record changes no identifier or provider, so every `get` on the machine table finds what it found before. */
  lemma RelinkSameRecords(cat: Catalog, k: nat, u: Uuid, img: ProviderImage, p: ProviderId, id: Identifier)
    requires k < |cat.machines|
    ensures FindMachine(Relink(cat, k, u, img).catalog.machines, p, id) == FindMachine(cat.machines, p, id)
  {
    var ms' := Relink(cat, k, u, img).catalog.machines;
    RelinkFrame(cat, k, u, img);
    forall j | 0 <= j < |cat.machines|
      ensures cat.machines[j].identifier == ms'[j].identifier && cat.machines[j].provider == ms'[j].provider
    {
    }
    RecordIndicesSameKeys(cat.machines, ms', p, id);
  }

  /** Re-linking record `k` leaves every other record as it was, and keeps the catalog invariant: keys distinct and below the next free key, every record linked to an existing application. */
  lemma RelinkFrame(cat: Catalog, k: nat, u: Uuid, img: ProviderImage)
    requires k < |cat.machines|
    ensures var o := Relink(cat, k, u, img);
      forall j :: 0 <= j < |cat.machines| && j != k ==> o.catalog.machines[j] == cat.machines[j]
    ensures CatalogValid(cat) ==> CatalogValid(Relink(cat, k, u, img).catalog)
  {
    var byUuid := Filter(cat.apps, ByUuid(u));
    if byUuid != [] {
      assert byUuid[0] in cat.apps;
    }
    if CatalogValid(cat) {
      RelinkKeepsLinksValid(cat, k, u, img);
    }
  }

  /** Every record still links to an existing application after a re-link: the others keep theirs, record `k` gets the one returned. */
  lemma RelinkKeepsLinksValid(cat: Catalog, k: nat, u: Uuid, img: ProviderImage)
    requires k < |cat.machines|
    requires forall m :: m in cat.machines ==> HasApplication(cat.apps, m.application)
    ensures var o := Relink(cat, k, u, img);
      forall m :: m in o.catalog.machines ==> HasApplication(o.catalog.apps, m.application)
  {
    var byUuid := Filter(cat.apps, ByUuid(u));
    var o := Relink(cat, k, u, img);
    forall m | m in o.catalog.machines
      ensures HasApplication(o.catalog.apps, m.application)
    {
      var i :| 0 <= i < |o.catalog.machines| && o.catalog.machines[i] == m;
      if i != k {
        assert cat.machines[i] in cat.machines;
        var j :| 0 <= j < |cat.apps| && cat.apps[j].id == cat.machines[i].application;
        assert o.catalog.apps[j] == cat.apps[j];
      } else if byUuid != [] {
        assert byUuid[0] in cat.apps;
        var j :| 0 <= j < |cat.apps| && cat.apps[j] == byUuid[0];
        assert o.catalog.apps[j] == cat.apps[j];
      } else {
        assert o.catalog.apps[|cat.apps|].id == o.app;
      }
    }
  }

  /**
   * When a fix creates the application, no record but the fixed one links to
   * it: its key is the next free key, which no existing record can name.
   */
  lemma RelinkFreshApplication(cat: Catalog, k: nat, u: Uuid, img: ProviderImage)
    requires k < |cat.machines| && CatalogValid(cat)
    requires Filter(cat.apps, ByUuid(u)) == []
    ensures var o := Relink(cat, k, u, img);
      o.app == cat.nextAppId && |o.catalog.apps| == |cat.apps| + 1 &&
      forall j :: 0 <= j < |o.catalog.machines| ==> (o.catalog.machines[j].application == o.app <==> j == k)
  {
    var o := Relink(cat, k, u, img);
    forall j | 0 <= j < |o.catalog.machines| && j != k
      ensures o.catalog.machines[j].application != o.app
    {
      assert cat.machines[j] in cat.machines;
      var i :| 0 <= i < |cat.apps| && cat.apps[i].id == cat.machines[j].application;
    }
  }

  /** After a fix, the record is linked to the first application with its derived UUID, so the classifier calls it correct. */
  lemma ApplyFixLinksByUuid(derive: Identifier -> Uuid, cat: Catalog, snap: seq<ProviderImage>, p: ProviderId, id: Identifier)
    requires ApplyFixSpec(derive, cat, snap, p, id).Ok?
    ensures FindMachine(cat.machines, p, id).Ok?
    ensures var o := ApplyFixSpec(derive, cat, snap, p, id).value;
      var k := FindMachine(cat.machines, p, id).value;
      var byUuid := Filter(o.catalog.apps, ByUuid(derive(id)));
      byUuid != [] && byUuid[0].id == o.app &&
      o.catalog.machines[k].application == o.app &&
      Classify(derive, o.catalog.apps, snap, o.catalog.machines[k]) == Correct
  {
    var img := FindImage(snap, id).value;
    var before := Filter(cat.apps, ByUuid(derive(id)));
    if before == [] {
      FilterAppend(cat.apps, Application(cat.nextAppId, derive(id), img.name, !img.isPublic), ByUuid(derive(id)));
    }
  }

  /** A fix reuses the first application with the derived UUID when there is one, and otherwise creates exactly one, after which it is the only one. */
  lemma ApplyFixReusesOrCreatesOne(derive: Identifier -> Uuid, cat: Catalog, snap: seq<ProviderImage>, p: ProviderId, id: Identifier)
    requires ApplyFixSpec(derive, cat, snap, p, id).Ok?
    ensures FindImage(snap, id).Some?
    ensures var o := ApplyFixSpec(derive, cat, snap, p, id).value;
      var img := FindImage(snap, id).value;
      var before := Filter(cat.apps, ByUuid(derive(id)));
      (before != [] ==> o.catalog.apps == cat.apps && o.catalog.nextAppId == cat.nextAppId && o.app == before[0].id) &&
      (before == [] ==>
        o.catalog.apps == cat.apps + [Application(cat.nextAppId, derive(id), img.name, !img.isPublic)] &&
        o.catalog.nextAppId == cat.nextAppId + 1 && o.app == cat.nextAppId &&
        |Filter(o.catalog.apps, ByUuid(derive(id)))| == 1)
  {
    var img := FindImage(snap, id).value;
    if Filter(cat.apps, ByUuid(derive(id))) == [] {
      FilterAppend(cat.apps, Application(cat.nextAppId, derive(id), img.name, !img.isPublic), ByUuid(derive(id)));
    }
  }

  /** Applying the same fix a second time changes nothing further. */
  lemma ApplyFixIdempotent(derive: Identifier -> Uuid, cat: Catalog, snap: seq<ProviderImage>, p: ProviderId, id: Identifier)
    requires ApplyFixSpec(derive, cat, snap, p, id).Ok?
    ensures var o := ApplyFixSpec(derive, cat, snap, p, id).value;
      ApplyFixSpec(derive, o.catalog, snap, p, id) == Ok(o)
  {
    var o := ApplyFixSpec(derive, cat, snap, p, id).value;
    var img := FindImage(snap, id).value;
    var k := FindMachine(cat.machines, p, id).value;
    assert o == Relink(cat, k, derive(id), img);
    RelinkSameRecords(cat, k, derive(id), img, p, id);
    assert ApplyFixSpec(derive, o.catalog, snap, p, id) == Ok(Relink(o.catalog, k, derive(id), img));
    RelinkIdempotent(cat, k, derive(id), img);
  }

  /** Relinking a record that is already linked to the first application with the UUID changes nothing. */
  lemma RelinkIdempotent(cat: Catalog, k: nat, u: Uuid, img: ProviderImage)
    requires k < |cat.machines|
    ensures var o := Relink(cat, k, u, img);
      Relink(o.catalog, k, u, img) == o
  {
    var o := Relink(cat, k, u, img);
    assert o.catalog.machines[k := o.catalog.machines[k].(application := o.app)] == o.catalog.machines;
  }

  /**
   * `_apply_fix` as written: on the create path it calls
   * `create_application`, which the script never imports (and passes
   * `image.is_public` for a name `image` it never binds), so it raises
   * before the record is linked; the reuse path is unaffected.
   */
  function ApplyFixAsWritten(derive: Identifier -> Uuid, cat: Catalog, snap: seq<ProviderImage>, p: ProviderId, id: Identifier): (r: Result<FixOutcome, FixError>)
    ensures r.Ok? <==> ApplyFixSpec(derive, cat, snap, p, id).Ok? && Filter(cat.apps, ByUuid(derive(id))) != []
    ensures r.Ok? ==> r == ApplyFixSpec(derive, cat, snap, p, id)
    ensures ApplyFixSpec(derive, cat, snap, p, id).Err? ==> r == ApplyFixSpec(derive, cat, snap, p, id)
  {
    match ApplyFixSpec(derive, cat, snap, p, id)
    case Err(e) => Err(e)
    case Ok(o) => if Filter(cat.apps, ByUuid(derive(id))) == [] then Err(NameUnbound("create_application")) else Ok(o)
  }

  /** A sample UUID derivation for the counterexamples. */
  function SampleDerive(id: Identifier): Uuid {
    "uuid-" + id
  }

  /** A record in the create list: as written its fix raises; the intended fix creates the application and links the record. */
  lemma CreateFixCounterexample()
    ensures var cat := Catalog([], [ProviderMachine("img-1", 1, 7)], 8);
      var snap := [ProviderImage("img-1", "ubuntu", true, map[])];
      Classify(SampleDerive, cat.apps, snap, cat.machines[0]) == Create &&
      ApplyFixAsWritten(SampleDerive, cat, snap, 1, "img-1") == Err(NameUnbound("create_application")) &&
      ApplyFixSpec(SampleDerive, cat, snap, 1, "img-1") ==
        Ok(FixOutcome(Catalog([Application(8, SampleDerive("img-1"), "ubuntu", false)], [ProviderMachine("img-1", 1, 8)], 9), 8))
  {
    var snap := [ProviderImage("img-1", "ubuntu", true, map[])];
    var ms := [ProviderMachine("img-1", 1, 7)];
    var cat := Catalog([], ms, 8);
    var app := Application(8, SampleDerive("img-1"), "ubuntu", false);
    assert FindImage(snap, "img-1") == Some(snap[0]);
    assert Classify(SampleDerive, cat.apps, snap, ms[0]) == Create;
    assert FindMachine(ms, 1, "img-1") == Ok(0) by {
      assert ms[..0] == [];
      assert RecordIndices(ms, 1, "img-1") == [0];
    }
    assert Relink(cat, 0, SampleDerive("img-1"), snap[0]) == FixOutcome(Catalog([app], [ProviderMachine("img-1", 1, 8)], 9), 8) by {
      assert ms[0 := ms[0].(application := 8)] == [ProviderMachine("img-1", 1, 8)];
      assert [] + [app] == [app];
    }
  }

  // ---------------------------------------------------------------------
  // Running a fix list

  /** The catalog after one dispatched action: unchanged unless the action is a fix, and a fix may raise. */
  function FixStep(derive: Identifier -> Uuid, cat: Catalog, snap: seq<ProviderImage>, p: ProviderId, id: Identifier, a: Action): Result<Catalog, FixError> {
    if !a.Fix? then Ok(cat)
    else
      match ApplyFixSpec(derive, cat, snap, p, id)
      case Err(e) => Err(e)
      case Ok(o) => Ok(o.catalog)
  }

  /** The fix-list loop of the script: dispatch each identifier in turn, apply the fixes, and stop at the first fix that raises. */
  function RunFixes(derive: Identifier -> Uuid, cat: Catalog, snap: seq<ProviderImage>, p: ProviderId, b: Buckets, force: bool, ids: seq<Identifier>): (r: FixRun)
    ensures |r.actions| <= |ids|
    ensures r.failure == None ==> |r.actions| == |ids|
    decreases |ids|
  {
    if ids == [] then FixRun(cat, [], None)
    else
      var a := Dispatch(b, force, ids[0]);
      match FixStep(derive, cat, snap, p, ids[0], a)
      case Err(e) => FixRun(cat, [a], Some(e))
      case Ok(next) =>
        var rest := RunFixes(derive, next, snap, p, b, force, ids[1..]);
        FixRun(rest.catalog, [a] + rest.actions, rest.failure)
  }

  /** The actions of a fix list are the dispatch of its identifiers, in order, up to the fix that stops it. */
  lemma {:induction false} RunFixesActions(derive: Identifier -> Uuid, cat: Catalog, snap: seq<ProviderImage>, p: ProviderId, b: Buckets, force: bool, ids: seq<Identifier>)
    ensures var r := RunFixes(derive, cat, snap, p, b, force, ids);
      forall i :: 0 <= i < |r.actions| ==> r.actions[i] == Dispatch(b, force, ids[i])
    decreases |ids|
  {
    if ids != [] {
      var step := FixStep(derive, cat, snap, p, ids[0], Dispatch(b, force, ids[0]));
      if step.Ok? {
        RunFixesActions(derive, step.value, snap, p, b, force, ids[1..]);
      }
    }
  }

  /** A fix list stops only at a fix whose catalog change failed, and that fix is the last action taken. */
  lemma {:induction false} RunFixesStopsAtFix(derive: Identifier -> Uuid, cat: Catalog, snap: seq<ProviderImage>, p: ProviderId, b: Buckets, force: bool, ids: seq<Identifier>)
    ensures var r := RunFixes(derive, cat, snap, p, b, force, ids);
      r.failure.Some? ==> r.actions != [] && r.actions[|r.actions| - 1].Fix?
    decreases |ids|
  {
    if ids != [] {
      var a := Dispatch(b, force, ids[0]);
      var step := FixStep(derive, cat, snap, p, ids[0], a);
      if step.Ok? {
        RunFixesStopsAtFix(derive, step.value, snap, p, b, force, ids[1..]);
        var r := RunFixes(derive, cat, snap, p, b, force, ids);
        var rest := RunFixes(derive, step.value, snap, p, b, force, ids[1..]);
        assert r.actions == [a] + rest.actions;
        if rest.failure.Some? {
          assert r.actions[|r.actions| - 1] == rest.actions[|rest.actions| - 1];
        }
      }
    }
  }

  /** A run that continues after the actions already taken. */
  function After(done: seq<Action>, rest: FixRun): FixRun {
    FixRun(rest.catalog, done + rest.actions, rest.failure)
  }

  /** One turn of the fix loop: the run from position `i` is the step on `ids[i]` followed by the run from `i + 1`. */
  lemma RunFixesUnfold(derive: Identifier -> Uuid, cat: Catalog, snap: seq<ProviderImage>, p: ProviderId, b: Buckets, force: bool, ids: seq<Identifier>, i: nat)
    requires i < |ids|
    ensures var a := Dispatch(b, force, ids[i]);
      RunFixes(derive, cat, snap, p, b, force, ids[i..]) ==
        match FixStep(derive, cat, snap, p, ids[i], a)
        case Err(e) => FixRun(cat, [a], Some(e))
        case Ok(next) => After([a], RunFixes(derive, next, snap, p, b, force, ids[i + 1..]))
  {
    assert ids[i..][0] == ids[i] && ids[i..][1..] == ids[i + 1..];
  }

  lemma AfterAfter(done: seq<Action>, a: Action, rest: FixRun)
    ensures After(done, After([a], rest)) == After(done + [a], rest)
  {
    assert done + ([a] + rest.actions) == (done + [a]) + rest.actions;
  }

  /** Whether the fix list sends the identifier to a fix. */
  ghost predicate FixedSomewhere(b: Buckets, force: bool, ids: seq<Identifier>, id: Identifier) {
    exists k :: 0 <= k < |ids| && ids[k] == id && Dispatch(b, force, ids[k]).Fix?
  }

  /** A fix list changes a record only if the record belongs to the provider and its identifier is dispatched to a fix; no record is added or removed. */
  lemma {:induction false} RunFixesFrame(derive: Identifier -> Uuid, cat: Catalog, snap: seq<ProviderImage>, p: ProviderId, b: Buckets, force: bool, ids: seq<Identifier>, j: nat)
    requires j < |cat.machines|
    ensures var r := RunFixes(derive, cat, snap, p, b, force, ids);
      |r.catalog.machines| == |cat.machines| &&
      r.catalog.machines[j].identifier == cat.machines[j].identifier &&
      r.catalog.machines[j].provider == cat.machines[j].provider &&
      (r.catalog.machines[j] != cat.machines[j] ==>
        cat.machines[j].provider == p && FixedSomewhere(b, force, ids, cat.machines[j].identifier))
    decreases |ids|
  {
    if ids != [] {
      var a := Dispatch(b, force, ids[0]);
      var step := FixStep(derive, cat, snap, p, ids[0], a);
      if step.Ok? {
        var m := cat.machines[j];
        var next := step.value;
        if a.Fix? {
          ApplyFixFrame(derive, cat, snap, p, ids[0]);
        }
        RunFixesFrame(derive, next, snap, p, b, force, ids[1..], j);
        if RunFixes(derive, cat, snap, p, b, force, ids).catalog.machines[j] != m {
          if next.machines[j] != m {
            assert ids[0] == m.identifier;
          } else {
            var k :| 0 <= k < |ids[1..]| && ids[1..][k] == m.identifier && Dispatch(b, force, ids[1..][k]).Fix?;
            assert ids[k + 1] == m.identifier;
          }
        }
      }
    }
  }

  /** A record whose identifier the dispatch does not send to a fix is left as it was by the whole fix list. */
  lemma RunFixesKeepsSkipped(derive: Identifier -> Uuid, cat: Catalog, snap: seq<ProviderImage>, p: ProviderId, b: Buckets, force: bool, ids: seq<Identifier>, j: nat)
    requires j < |cat.machines|
    requires !Dispatch(b, force, cat.machines[j].identifier).Fix?
    ensures var r := RunFixes(derive, cat, snap, p, b, force, ids);
      j < |r.catalog.machines| && r.catalog.machines[j] == cat.machines[j]
  {
    RunFixesFrame(derive, cat, snap, p, b, force, ids, j);
  }

  /** A record matched by name shares its identifier's UUID lookup and image lookup with every record of that identifier, so none of them is deleted or correct. */
  lemma SameIdentifierAsNameMatch(derive: Identifier -> Uuid, apps: seq<Application>, snap: seq<ProviderImage>, m: ProviderMachine, m': ProviderMachine)
    requires Classify(derive, apps, snap, m) == NameMatch
    ensures m'.identifier == m.identifier ==>
      Classify(derive, apps, snap, m') != Deleted && Classify(derive, apps, snap, m') != Correct
  {
  }

  /** Without the force flag, the identifier of a record matched by name is skipped, whatever other records carry the same identifier. */
  lemma NameMatchSkipped(derive: Identifier -> Uuid, apps: seq<Application>, snap: seq<ProviderImage>, ms: seq<ProviderMachine>, m: ProviderMachine)
    requires m in ms && Classify(derive, apps, snap, m) == NameMatch
    ensures Dispatch(Classification(derive, apps, snap, ms), false, m.identifier) == Skip(NameMatch)
  {
    var b := Classification(derive, apps, snap, ms);
    assert m in Bucket(b, NameMatch);
    var k :| 0 <= k < |b.nameMatch| && b.nameMatch[k] == m;
    assert HasIdentifier(b.nameMatch, m.identifier);
    forall k | 0 <= k < |b.deleted| ensures b.deleted[k].identifier != m.identifier {
      assert b.deleted[k] in Bucket(b, Deleted);
      SameIdentifierAsNameMatch(derive, apps, snap, m, b.deleted[k]);
    }
    forall k | 0 <= k < |b.correct| ensures b.correct[k].identifier != m.identifier {
      assert b.correct[k] in Bucket(b, Correct);
      SameIdentifierAsNameMatch(derive, apps, snap, m, b.correct[k]);
    }
    assert !HasIdentifier(b.deleted, m.identifier) && !HasIdentifier(b.correct, m.identifier);
  }

  /** Without the force flag, a fix list never changes a record the classifier found matching by name. */
  lemma NameMatchUntouchedWithoutForce(derive: Identifier -> Uuid, cat: Catalog, snap: seq<ProviderImage>, p: ProviderId, ids: seq<Identifier>, j: nat)
    requires j < |cat.machines| && cat.machines[j].provider == p
    requires Classify(derive, cat.apps, snap, cat.machines[j]) == NameMatch
    ensures var r := RunFixes(derive, cat, snap, p, Classification(derive, cat.apps, snap, OfProvider(cat.machines, p)), false, ids);
      j < |r.catalog.machines| && r.catalog.machines[j] == cat.machines[j]
  {
    var ms := OfProvider(cat.machines, p);
    var m := cat.machines[j];
    assert m in cat.machines;
    NameMatchSkipped(derive, cat.apps, snap, ms, m);
    RunFixesKeepsSkipped(derive, cat, snap, p, Classification(derive, cat.apps, snap, ms), false, ids, j);
  }

  /** The provider's record with the identifier exists and is linked to the first application carrying the identifier's UUID. */
  predicate LinkedByUuid(derive: Identifier -> Uuid, cat: Catalog, p: ProviderId, id: Identifier) {
    var found := FindMachine(cat.machines, p, id);
    var byUuid := Filter(cat.apps, ByUuid(derive(id)));
    found.Ok? && byUuid != [] && byUuid[0].id == cat.machines[found.value].application
  }

  /** A successful fix leaves its identifier linked by UUID. */
  lemma ApplyFixEstablishesLink(derive: Identifier -> Uuid, cat: Catalog, snap: seq<ProviderImage>, p: ProviderId, id: Identifier)
    requires ApplyFixSpec(derive, cat, snap, p, id).Ok?
    ensures LinkedByUuid(derive, ApplyFixSpec(derive, cat, snap, p, id).value.catalog, p, id)
  {
    var o := ApplyFixSpec(derive, cat, snap, p, id).value;
    var k := FindMachine(cat.machines, p, id).value;
    assert o == Relink(cat, k, derive(id), FindImage(snap, id).value);
    RelinkSameRecords(cat, k, derive(id), FindImage(snap, id).value, p, id);
  }

  /** A successful fix of any identifier keeps every identifier that was linked by UUID linked. */
  lemma ApplyFixKeepsLink(derive: Identifier -> Uuid, cat: Catalog, snap: seq<ProviderImage>, p: ProviderId, id: Identifier, other: Identifier)
    requires LinkedByUuid(derive, cat, p, id)
    requires ApplyFixSpec(derive, cat, snap, p, other).Ok?
    ensures LinkedByUuid(derive, ApplyFixSpec(derive, cat, snap, p, other).value.catalog, p, id)
  {
    var o := ApplyFixSpec(derive, cat, snap, p, other).value;
    var k := FindMachine(cat.machines, p, other).value;
    var i := FindMachine(cat.machines, p, id).value;
    var img := FindImage(snap, other).value;
    assert o == Relink(cat, k, derive(other), img);
    ApplyFixFrame(derive, cat, snap, p, other);
    RelinkSameRecords(cat, k, derive(other), img, p, id);
    var before := Filter(cat.apps, ByUuid(derive(id)));
    assert Filter(o.catalog.apps, ByUuid(derive(id)))[0] == before[0] by {
      ApplyFixReusesOrCreatesOne(derive, cat, snap, p, other);
      if Filter(cat.apps, ByUuid(derive(other))) == [] {
        FilterAppend(cat.apps, Application(cat.nextAppId, derive(other), img.name, !img.isPublic), ByUuid(derive(id)));
      }
    }
    if i == k {
      assert id == other;
    }
  }

  /** A fix list keeps every identifier that was linked by UUID linked. */
  lemma {:induction false} RunFixesKeepsLink(derive: Identifier -> Uuid, cat: Catalog, snap: seq<ProviderImage>, p: ProviderId, b: Buckets, force: bool, ids: seq<Identifier>, id: Identifier)
    requires LinkedByUuid(derive, cat, p, id)
    ensures LinkedByUuid(derive, RunFixes(derive, cat, snap, p, b, force, ids).catalog, p, id)
    decreases |ids|
  {
    if ids != [] {
      var a := Dispatch(b, force, ids[0]);
      var step := FixStep(derive, cat, snap, p, ids[0], a);
      if step.Ok? {
        if a.Fix? {
          ApplyFixKeepsLink(derive, cat, snap, p, id, ids[0]);
        }
        RunFixesKeepsLink(derive, step.value, snap, p, b, force, ids[1..], id);
      }
    }
  }

  /** A fix list that runs to the end leaves every identifier it sent to a fix linked by UUID. */
  lemma {:induction false} RunFixesLinksFixed(derive: Identifier -> Uuid, cat: Catalog, snap: seq<ProviderImage>, p: ProviderId, b: Buckets, force: bool, ids: seq<Identifier>, k: nat)
    requires RunFixes(derive, cat, snap, p, b, force, ids).failure == None
    requires k < |ids| && Dispatch(b, force, ids[k]).Fix?
    ensures LinkedByUuid(derive, RunFixes(derive, cat, snap, p, b, force, ids).catalog, p, ids[k])
    decreases |ids|
  {
    var a := Dispatch(b, force, ids[0]);
    var step := FixStep(derive, cat, snap, p, ids[0], a);
    assert step.Ok?;
    var id := ids[k];
    if k == 0 {
      ApplyFixEstablishesLink(derive, cat, snap, p, id);
      RunFixesKeepsLink(derive, step.value, snap, p, b, force, ids[1..], id);
    } else {
      assert ids[1..][k - 1] == id;
      RunFixesLinksFixed(derive, step.value, snap, p, b, force, ids[1..], k - 1);
    }
  }

  /** When a fix list runs to the end, every identifier it sent to a fix names exactly one record of the provider, and the classifier now calls that record correct. */
  lemma RunFixesRelinks(derive: Identifier -> Uuid, cat: Catalog, snap: seq<ProviderImage>, p: ProviderId, b: Buckets, force: bool, ids: seq<Identifier>, k: nat)
    requires RunFixes(derive, cat, snap, p, b, force, ids).failure == None
    requires k < |ids| && Dispatch(b, force, ids[k]).Fix?
    ensures var r := RunFixes(derive, cat, snap, p, b, force, ids);
      var found := FindMachine(r.catalog.machines, p, ids[k]);
      found.Ok? && Classify(derive, r.catalog.apps, snap, r.catalog.machines[found.value]) == Correct
  {
    RunFixesLinksFixed(derive, cat, snap, p, b, force, ids, k);
  }

  // ---------------------------------------------------------------------
  // The membership test as written

  /**
   * Python's `==` between an identifier string and a `ProviderMachine`
   * model instance: the model's equality only accepts instances of the
   * model, so the comparison is false for every pair.
   */
  predicate StrEqualsModel(id: Identifier, pm: ProviderMachine) {
    false
  }

  /** `image_id in some_list` as written: the string is compared with the model instances themselves. */
  predicate InListAsWritten(list: seq<ProviderMachine>, id: Identifier) {
    exists k :: 0 <= k < |list| && StrEqualsModel(id, list[k])
  }

  /** The fix-list dispatch as written, with object membership instead of identifier membership: every identifier is reported as unidentified and nothing is fixed. */
  function DispatchAsWritten(b: Buckets, force: bool, id: Identifier): (r: Action)
    ensures r == Warn
  {
    if InListAsWritten(b.deleted, id) then Skip(Deleted)
    else if InListAsWritten(b.correct, id) then Skip(Correct)
    else if InListAsWritten(b.nameMatch, id) then (if force then Fix(NameMatch) else Skip(NameMatch))
    else if InListAsWritten(b.create, id) then Fix(Create)
    else if InListAsWritten(b.incorrect, id) then Fix(Incorrect)
    else Warn
  }

  /** A record waiting for creation: as written it only draws a warning; by identifier it is fixed. */
  lemma MembershipCounterexample()
    ensures var m := ProviderMachine("img-2", 1, 7);
      var b := Buckets([], [], [m], [], []);
      DispatchAsWritten(b, false, "img-2") == Warn && Dispatch(b, false, "img-2") == Fix(Create)
  {
    var m := ProviderMachine("img-2", 1, 7);
    assert Buckets([], [], [m], [], []).create[0].identifier == "img-2";
  }

  // ---------------------------------------------------------------------
  // The script's state

  /**
   * One run of the script against one provider: the application and
   * machine tables, the global image cache `Images`, the global `Force`
   * flag, what the provider's image service lists, and the UUID
   * derivation.
   */
  class FixSession {
    var apps: seq<Application>
    var machines: seq<ProviderMachine>
    var nextAppId: AppId
    var images: seq<ProviderImage>
    var force: bool
    const upstream: seq<ProviderImage>
    const derive: Identifier -> Uuid

    function Store(): Catalog
      reads this
    {
      Catalog(apps, machines, nextAppId)
    }

    ghost predicate Valid()
      reads this
    {
      CatalogValid(Store())
    }

    /** The module globals start as `Force = True` and `Images = []`. */
    constructor (apps: seq<Application>, machines: seq<ProviderMachine>, nextAppId: AppId, upstream: seq<ProviderImage>, derive: Identifier -> Uuid)
      requires CatalogValid(Catalog(apps, machines, nextAppId))
      ensures Valid()
      ensures Store() == Catalog(apps, machines, nextAppId)
      ensures images == [] && force
      ensures this.upstream == upstream && this.derive == derive
    {
      this.apps := apps;
      this.machines := machines;
      this.nextAppId := nextAppId;
      this.images := [];
      this.force := true;
      this.upstream := upstream;
      this.derive := derive;
    }

    /** `get_image`: refill the cache from the provider when it is empty, then return the first cached image with the id. */
    method GetImage(id: Identifier) returns (r: Option<ProviderImage>)
      modifies this`images
      ensures images == Snapshot(old(images), upstream)
      ensures r == FindImage(images, id)
    {
      if images == [] {
        images := upstream;
      }
      var i := 0;
      while i < |images| && images[i].id != id
        invariant 0 <= i <= |images|
        invariant forall j :: 0 <= j < i ==> images[j].id != id
      {
        i := i + 1;
      }
      r := if i < |images| then Some(images[i]) else None;
    }

    /** The body of the loop in `_identify_problem_apps`: the category of one record, consulting the image cache only when no application carries the derived UUID. */
    method CategoryOf(pm: ProviderMachine) returns (c: Category)
      modifies this`images
      ensures Snapshot(images, upstream) == Snapshot(old(images), upstream)
      ensures images == old(images) || (old(images) == [] && images == upstream)
      ensures c == Classify(derive, apps, Snapshot(old(images), upstream), pm)
    {
      var byUuid := Filter(apps, ByUuid(derive(pm.identifier)));
      if |byUuid| == 0 {
        var img := GetImage(pm.identifier);
        if img.None? {
          c := Deleted;
        } else {
          var byName := Filter(apps, ByName(img.value.name));
          if |byName| > 0 {
            c := if byName[0].id == pm.application then NameMatch else Incorrect;
          } else {
            c := Create;
          }
        }
      } else {
        c := if byUuid[0].id == pm.application then Correct else Incorrect;
      }
    }

    /** `_identify_problem_apps`: walk the provider's records in table order and append each to the list of its category. */
    method IdentifyProblemApps(p: ProviderId) returns (b: Buckets)
      modifies this`images
      ensures Snapshot(images, upstream) == Snapshot(old(images), upstream)
      ensures images == old(images) || (old(images) == [] && images == upstream)
      ensures b == Classification(derive, apps, Snapshot(old(images), upstream), OfProvider(machines, p))
    {
      ghost var snap := Snapshot(images, upstream);
      var ms := OfProvider(machines, p);
      var deleted, incorrect, create, nameMatch, correct := [], [], [], [], [];
      var i := 0;
      while i < |ms|
        invariant 0 <= i <= |ms|
        invariant Snapshot(images, upstream) == snap
        invariant images == old(images) || (old(images) == [] && images == upstream)
        invariant Buckets(deleted, incorrect, create, nameMatch, correct) == Classification(derive, apps, snap, ms[..i])
      {
        var pm := ms[i];
        var c := CategoryOf(pm);
        match c {
          case Deleted => deleted := deleted + [pm];
          case Incorrect => incorrect := incorrect + [pm];
          case Create => create := create + [pm];
          case NameMatch => nameMatch := nameMatch + [pm];
          case Correct => correct := correct + [pm];
        }
        ClassificationStep(derive, apps, snap, ms, i);
        i := i + 1;
      }
      assert ms[..|ms|] == ms;
      b := Buckets(deleted, incorrect, create, nameMatch, correct);
    }

    /** `_apply_fix`: link the record to the application with the derived UUID, creating that application when there is none. */
    method ApplyFix(p: ProviderId, id: Identifier) returns (r: Result<AppId, FixError>)
      requires Valid()
      modifies this`apps, this`machines, this`nextAppId, this`images
      ensures Valid()
      ensures images == Snapshot(old(images), upstream)
      ensures match ApplyFixSpec(derive, old(Store()), images, p, id)
        case Ok(o) => r == Ok(o.app) && Store() == o.catalog
        case Err(e) => r == Err(e) && Store() == old(Store())
    {
      var u := derive(id);
      var img := GetImage(id);
      if img.None? {
        assert ApplyFixSpec(derive, old(Store()), images, p, id) == Err(ImageNotFound);
        return Err(ImageNotFound);
      }
      var found := FindMachine(machines, p, id);
      if found.Err? {
        assert ApplyFixSpec(derive, old(Store()), images, p, id) == Err(found.error);
        return Err(found.error);
      }
      var k := found.value;
      assert ApplyFixSpec(derive, old(Store()), images, p, id) == Ok(Relink(old(Store()), k, u, img.value));
      var app := LinkRecord(k, u, img.value);
      assert Valid() by {
        ApplyFixFrame(derive, old(Store()), images, p, id);
      }
      // The refreshed image is fetched again through the cache, which is no longer empty.
      assert images != [];
      var _ := GetImage(id);
      r := Ok(app);
    }

    /** The linking half of `_apply_fix`: take the first application with UUID `u` or create one from the image, then point record `k` at it. */
    method LinkRecord(k: nat, u: Uuid, img: ProviderImage) returns (app: AppId)
      requires k < |machines|
      modifies this`apps, this`machines, this`nextAppId
      ensures FixOutcome(Store(), app) == Relink(old(Store()), k, u, img)
    {
      var byUuid := Filter(apps, ByUuid(u));
      var a: Application;
      if byUuid == [] {
        a := Application(nextAppId, u, img.name, !img.isPublic);
        apps := apps + [a];
        nextAppId := nextAppId + 1;
      } else {
        a := byUuid[0];
      }
      machines := machines[k := machines[k].(application := a.id)];
      app := a.id;
    }

    /** One turn of the `--fix_list` loop: dispatch the identifier and, when it is to be fixed, fix it. */
    method FixOne(p: ProviderId, b: Buckets, id: Identifier) returns (a: Action, e: Option<FixError>)
      requires Valid()
      modifies this`apps, this`machines, this`nextAppId, this`images
      ensures Valid()
      ensures Snapshot(images, upstream) == Snapshot(old(images), upstream)
      ensures a == Dispatch(b, force, id)
      ensures match FixStep(derive, old(Store()), Snapshot(old(images), upstream), p, id, a)
        case Err(err) => e == Some(err) && Store() == old(Store())
        case Ok(c) => e == None && Store() == c
    {
      a := Dispatch(b, force, id);
      e := None;
      if a.Fix? {
        var r := ApplyFix(p, id);
        if r.Err? {
          e := Some(r.error);
        }
      }
    }

    /** The `--fix_list` loop of `main`: one action per identifier, stopping at the first fix that raises. */
    method FixList(p: ProviderId, b: Buckets, ids: seq<Identifier>) returns (actions: seq<Action>, failure: Option<FixError>)
      requires Valid()
      modifies this`apps, this`machines, this`nextAppId, this`images
      ensures Valid()
      ensures Snapshot(images, upstream) == Snapshot(old(images), upstream)
      ensures RunFixes(derive, old(Store()), Snapshot(old(images), upstream), p, b, force, ids) == FixRun(Store(), actions, failure)
    {
      ghost var snap := Snapshot(images, upstream);
      ghost var total := RunFixes(derive, Store(), snap, p, b, force, ids);
      actions, failure := [], None;
      var i := 0;
      assert ids[0..] == ids;
      assert total == After(actions, total);
      while i < |ids|
        invariant 0 <= i <= |ids|
        invariant Valid()
        invariant Snapshot(images, upstream) == snap
        invariant failure == None
        invariant total == After(actions, RunFixes(derive, Store(), snap, p, b, force, ids[i..]))
      {
        ghost var before := Store();
        RunFixesUnfold(derive, before, snap, p, b, force, ids, i);
        var a, e := FixOne(p, b, ids[i]);
        if e.Some? {
          assert FixStep(derive, before, snap, p, ids[i], a) == Err(e.value);
          actions, failure := actions + [a], e;
          return;
        }
        assert FixStep(derive, before, snap, p, ids[i], a) == Ok(Store());
        AfterAfter(actions, a, RunFixes(derive, Store(), snap, p, b, force, ids[i + 1..]));
        actions := actions + [a];
        i := i + 1;
      }
    }

    /** `main` after its argument checks: list the images, classify, set `Force`, and run the fix list. */
    method Run(p: ProviderId, forceFlag: bool, ids: seq<Identifier>) returns (b: Buckets, actions: seq<Action>, failure: Option<FixError>)
      requires Valid()
      modifies this
      ensures Valid()
      ensures force == forceFlag
      ensures Snapshot(images, upstream) == upstream
      ensures b == Classification(derive, old(apps), upstream, OfProvider(old(machines), p))
      ensures RunFixes(derive, old(Store()), upstream, p, b, forceFlag, ids) == FixRun(Store(), actions, failure)
    {
      images := upstream;
      b := IdentifyProblemApps(p);
      force := forceFlag;
      actions, failure := FixList(p, b, ids);
    }
  }
}
