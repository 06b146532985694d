/**
  The suite index `ctest_impl_suite_hashtable`: 1024 buckets, each a circular
  singly linked list whose head is the bucket slot itself. A pointer to slot
  i of the array is written `BucketHead(i)`; a pointer to the list node
  embedded in a suite is written `SuiteNode(s)`; static zero-initialisation
  leaves every slot `Null`.
 */
module SuiteIndex {
  import opened CTypes
  import Fnv

  const HashSize := 1024

  datatype SLink = Null | BucketHead(index: nat) | SuiteNode(suite: Suite)

  /** struct ctest_impl_slist_head, the node embedded in a suite. */
  class SNode {
    var next: SLink

    constructor ()
      ensures next == Null
    {
      next := Null;
    }
  }

  /** The bucket a key selects: `key % size` (ctest.h:143, 151). */
  function Bucket(name: CString): (b: nat)
    ensures b < HashSize
  {
    Fnv.HashSuite(name) as int % HashSize
  }

  /** The hooks a suite carries, as a value. */
  datatype SuiteHooks = SuiteHooks(setup: Option<FuncPtr>, teardown: Option<FuncPtr>)

  /**
    struct ctest_impl_suite. Its embedded list node `next` is the object
    `node`, so that linking a suite and setting its hooks touch different
    memory, as they do in C.
   */
  class Suite {
    const name: CString
    var setup: Option<FuncPtr>
    var teardown: Option<FuncPtr>
    const node: SNode

    /** The static initialiser in CTEST_IMPL_FIXTURE: no hooks, node a self-loop. */
    constructor (name: CString)
      ensures this.name == name && setup == None && teardown == None
      ensures fresh(node) && node.next == SuiteNode(this)
    {
      this.name := name;
      setup, teardown := None, None;
      node := new SNode();
      new;
      node.next := SuiteNode(this);
    }

    function Hooks(): SuiteHooks
      reads this
    {
      SuiteHooks(setup, teardown)
    }
  }

  /** Every suite in bucket b has a name that hashes to b. */
  ghost predicate Hashed(chains: seq<seq<Suite>>) {
    && |chains| == HashSize
    && forall b, j :: 0 <= b < |chains| && 0 <= j < |chains[b]| ==> Bucket(chains[b][j].name) == b
  }

  /** What a lookup of `name` finds: the scan of the bucket its name hashes to. */
  ghost function Lookup(chains: seq<seq<Suite>>, name: CString): Suite?
    requires |chains| == HashSize
  {
    FindIn(chains[Bucket(name)], name)
  }

  ghost function NamesOf(chains: seq<seq<Suite>>): set<CString> {
    set b, j | 0 <= b < |chains| && 0 <= j < |chains[b]| :: chains[b][j].name
  }

  /** When every suite sits in its own bucket, a lookup finds a name exactly when some bucket holds it. */
  lemma LookupIffNamed(chains: seq<seq<Suite>>, name: CString)
    requires Hashed(chains)
    ensures Lookup(chains, name) != null <==> name in NamesOf(chains)
  {
    if name in NamesOf(chains) {
      var b, j :| 0 <= b < |chains| && 0 <= j < |chains[b]| && chains[b][j].name == name;
      assert chains[Bucket(name)][j].name == name;
    }
  }

  /** Prepending a suite to the bucket its name hashes to keeps every suite in its own bucket. */
  lemma HashedPrepend(chains: seq<seq<Suite>>, s: Suite)
    requires Hashed(chains)
    ensures Hashed(chains[Bucket(s.name) := [s] + chains[Bucket(s.name)]])
  {
    var b := Bucket(s.name);
    var c: seq<seq<Suite>> := chains[b := [s] + chains[b]];
    forall i, j | 0 <= i < |c| && 0 <= j < |c[i]| ensures Bucket(c[i][j].name) == i {
      if i == b && j > 0 {
        assert c[i][j] == chains[b][j - 1];
      }
    }
  }

  /** The first suite of `chain` named `name`, or null: what a scan of one bucket finds. */
  function FindIn(chain: seq<Suite>, name: CString): (r: Suite?)
    ensures r != null ==> r in chain && r.name == name
    ensures r == null <==> forall j :: 0 <= j < |chain| ==> chain[j].name != name
  {
    if chain == [] then null
    else if chain[0].name == name then chain[0]
    else FindIn(chain[1..], name)
  }

  /** Scanning stops at the first match: a suite prepended under `name` hides any older one. */
  lemma {:induction false} FindInFirst(chain: seq<Suite>, name: CString, k: nat)
    requires k < |chain| && chain[k].name == name
    requires forall j :: 0 <= j < k ==> chain[j].name != name
    ensures FindIn(chain, name) == chain[k]
    decreases k
  {
    if k > 0 {
      FindInFirst(chain[1..], name, k - 1);
    }
  }

  class SuiteTable {
    const heads: array<SLink>
    /** The suites of each bucket, in list order from the bucket head. */
    ghost var Chains: seq<seq<Suite>>
    ghost var Repr: set<Suite>
    /** The list nodes of the suites in Repr. */
    ghost var Links: set<SNode>

    ghost predicate Initialized()
      reads heads
    {
      heads.Length == HashSize && heads[0] != Null
    }

    /** The link that follows position j - 1 of bucket b (position -1 being the bucket head). */
    ghost function LinkTo(b: nat, j: nat): SLink
      reads this
      requires b < |Chains| && j <= |Chains[b]|
    {
      if j < |Chains[b]| then SuiteNode(Chains[b][j]) else BucketHead(b)
    }

    /** Bucket b links its chain in order back to its head, through distinct suites of the table. */
    ghost predicate BucketValid(b: nat)
      reads this, heads, Links
      requires b < HashSize && heads.Length == HashSize && |Chains| == HashSize
    {
      && (forall j :: 0 <= j < |Chains[b]| ==>
            Chains[b][j].node in Links &&
            Chains[b][j].node.next == LinkTo(b, j + 1))
      && (forall i, j :: 0 <= i < j < |Chains[b]| ==> Chains[b][i] != Chains[b][j])
      && (heads[0] != Null ==> heads[b] == LinkTo(b, 0))
    }

    /** Every suite sits in the bucket its name hashes to and belongs to the table. */
    ghost predicate Indexed()
      reads this
    {
      && Hashed(Chains)
      && forall b, j :: 0 <= b < |Chains| && 0 <= j < |Chains[b]| ==> Chains[b][j] in Repr
    }

    ghost predicate Valid()
      reads this, heads, Links
    {
      && heads.Length == HashSize
      && Indexed()
      && (heads[0] == Null ==> forall b :: 0 <= b < HashSize ==> heads[b] == Null && Chains[b] == [])
      && (forall b :: 0 <= b < HashSize ==> BucketValid(b))
    }

    /** What ctest_impl_find_suite(name) returns. */
    ghost function Find(name: CString): Suite?
      reads this
      requires |Chains| == HashSize
    {
      Lookup(Chains, name)
    }

    /** Every suite name in the table. */
    ghost function Names(): set<CString>
      reads this
    {
      NamesOf(Chains)
    }

    /**
      `fixtures` maps each suite name to its hooks exactly as the table
      answers find: the abstract content of the table, as the driver sees it.
     */
    ghost predicate Holds(fixtures: map<CString, SuiteHooks>)
      reads this, Repr
      requires |Chains| == HashSize
    {
      && (forall n :: n in fixtures ==> Find(n) != null && Find(n) in Repr && fixtures[n] == Find(n).Hooks())
      && (forall n {:trigger Find(n)} :: Find(n) != null ==> n in fixtures)
    }

    /** What find answers for `name` in a table that `fixtures` describes. */
    lemma HoldsAt(fixtures: map<CString, SuiteHooks>, name: CString)
      requires |Chains| == HashSize && Holds(fixtures)
      ensures Find(name) == null <==> name !in fixtures
      ensures name in fixtures ==> Find(name).Hooks() == fixtures[name]
    {
    }

    /** No two suites share a name. */
    ghost predicate UniqueNames()
      reads this
    {
      forall b, i, j :: 0 <= b < |Chains| && 0 <= i < j < |Chains[b]| ==> Chains[b][i].name != Chains[b][j].name
    }

    /** A name is in the table exactly when find finds it. */
    lemma FindIffNamed(name: CString)
      requires Indexed()
      ensures Find(name) != null <==> name in Names()
      ensures Find(name) != null ==> Find(name) in Repr
    {
      LookupIffNamed(Chains, name);
    }

    /** `DEFINE_HASHTABLE`: the zero-initialised static array. */
    constructor ()
      ensures Valid() && !Initialized() && fresh(heads) && Repr == {} && Links == {}
      ensures Chains == seq(HashSize, _ => []) && Holds(map[])
    {
      heads := new SLink[HashSize](_ => Null);
      Chains := seq(HashSize, _ => []);
      Repr, Links := {}, {};
    }

    /** ctest_impl_hash_init_helper: every bucket becomes an empty self-loop. */
    method InitHelper()
      requires heads.Length == HashSize
      modifies this, heads
      ensures Valid() && Initialized() && Repr == old(Repr) && Links == old(Links)
      ensures Chains == seq(HashSize, _ => [])
      ensures forall b :: 0 <= b < HashSize ==> heads[b] == BucketHead(b)
    {
      for i := 0 to HashSize
        invariant forall b :: 0 <= b < i ==> heads[b] == BucketHead(b)
        invariant Repr == old(Repr) && Links == old(Links)
      {
        heads[i] := BucketHead(i);
      }
      Chains := seq(HashSize, _ => []);
    }

    /**
      ctest_impl_hash_init_once: initialise only if bucket 0 is still NULL.
      Either way the chains are what they were (an uninitialised table has
      none), so calling it again after suites were added loses nothing.
     */
    method InitOnce()
      requires Valid()
      modifies this, heads
      ensures Valid() && Initialized()
      ensures Chains == old(Chains) && Repr == old(Repr) && Links == old(Links)
      ensures old(Initialized()) ==> heads[..] == old(heads[..])
    {
      if heads[0] == Null {
        InitHelper();
      }
    }

    /** In a valid table the node of the j-th suite of bucket b links to what follows it. */
    lemma NextLink(b: nat, j: nat)
      requires Valid() && Initialized() && b < HashSize && j <= |Chains[b]|
      ensures j < |Chains[b]| ==> Chains[b][j].node.next == LinkTo(b, j + 1)
      ensures heads[b] == LinkTo(b, 0)
    {
      assert BucketValid(b);
    }

    /** ctest_impl_find_suite: scan the name's bucket, comparing with strcmp. */
    method FindSuite(name: CString) returns (r: Suite?)
      requires Valid() && Initialized()
      ensures r == Find(name)
      ensures r != null ==> r in Repr && r.name == name
      ensures r == null <==> name !in Names()
    {
      FindIffNamed(name);
      var b := Bucket(name);
      NextLink(b, 0);
      var iter := heads[b];
      ghost var j := 0;
      while iter != BucketHead(b)
        invariant 0 <= j <= |Chains[b]| && iter == LinkTo(b, j)
        invariant forall i :: 0 <= i < j ==> Chains[b][i].name != name
        decreases |Chains[b]| - j
      {
        var s := iter.suite;
        NextLink(b, j);
        StrcmpZero(s.name, name);
        if Strcmp(s.name, name) == 0 {
          FindInFirst(Chains[b], name, j);
          return s;
        }
        iter := s.node.next;
        j := j + 1;
      }
      return null;
    }

    /**
      Every bucket but the one `s` hashes to stays valid across a step that
      keeps their chains and heads and relinks none of the table's nodes.
     */
    twostate lemma UntouchedBuckets(s: Suite)
      requires heads.Length == HashSize
      requires |old(Chains)| == HashSize && |Chains| == HashSize
      requires forall c :: 0 <= c < HashSize ==> old(BucketValid(c))
      requires old(heads[0]) != Null && heads[0] != Null
      requires forall c :: 0 <= c < HashSize && c != Bucket(s.name) ==> Chains[c] == old(Chains[c]) && heads[c] == old(heads[c])
      requires old(Links) <= Links
      requires forall o: SNode :: o in old(Links) ==> o.next == old(o.next)
      ensures forall c :: 0 <= c < HashSize && c != Bucket(s.name) ==> BucketValid(c)
    {
      forall c | 0 <= c < HashSize && c != Bucket(s.name) ensures BucketValid(c) {
        assert old(BucketValid(c));
        forall j | 0 <= j < |Chains[c]| ensures Chains[c][j].node.next == LinkTo(c, j + 1) {
          assert old(Chains[c][j].node.next == LinkTo(c, j + 1));
        }
      }
    }

    /** The bucket of `s` stays valid when `s` is linked in at its head. */
    twostate lemma PrependedBucket(s: Suite)
      requires heads.Length == HashSize
      requires |old(Chains)| == HashSize && |Chains| == HashSize
      requires old(BucketValid(Bucket(s.name))) && old(heads[0]) != Null && heads[0] != Null
      requires s.node !in old(Links)
      requires Chains[Bucket(s.name)] == [s] + old(Chains[Bucket(s.name)])
      requires heads[Bucket(s.name)] == SuiteNode(s) && s.node.next == old(heads[Bucket(s.name)])
      requires Repr == old(Repr) + {s} && Links == old(Links) + {s.node}
      requires forall o: SNode :: o in old(Links) ==> o.next == old(o.next)
      ensures BucketValid(Bucket(s.name))
    {
      var b := Bucket(s.name);
      ghost var chain := old(Chains[b]);
      forall j | 0 <= j < |chain| ensures chain[j].node.next == LinkTo(b, j + 2) {
        assert old(chain[j].node.next == LinkTo(b, j + 1));
      }
      forall i, j | 0 <= i < j < |Chains[b]| ensures Chains[b][i] != Chains[b][j] {
        if i == 0 {
          assert Chains[b][j] == chain[j - 1];
          assert old(chain[j - 1].node in Links);
        }
      }
    }

    /** ctest_impl_add_suite: prepend the suite's node to its bucket. */
    method AddSuite(suite: Suite)
      requires Valid() && Initialized()
      requires suite.node !in Links
      modifies this, heads, suite.node
      ensures Valid() && Initialized()
      ensures Chains == old(Chains)[Bucket(suite.name) := [suite] + old(Chains[Bucket(suite.name)])]
      ensures Repr == old(Repr) + {suite} && Links == old(Links) + {suite.node}
    {
      var b := Bucket(suite.name);
      suite.node.next := heads[b];
      heads[b] := SuiteNode(suite);
      Chains := Chains[b := [suite] + Chains[b]];
      Repr, Links := Repr + {suite}, Links + {suite.node};
      Prepended(suite);
    }

    /** The table stays valid when `s`, not yet linked, is pushed on its bucket. */
    twostate lemma Prepended(s: Suite)
      requires old(Valid()) && old(Initialized())
      requires s.node !in old(Links)
      requires Chains == old(Chains)[Bucket(s.name) := [s] + old(Chains[Bucket(s.name)])]
      requires Repr == old(Repr) + {s} && Links == old(Links) + {s.node}
      requires heads[Bucket(s.name)] == SuiteNode(s) && s.node.next == old(heads[Bucket(s.name)])
      requires forall c :: 0 <= c < HashSize && c != Bucket(s.name) ==> heads[c] == old(heads[c])
      requires forall o: SNode :: o in old(Links) ==> o.next == old(o.next)
      ensures Valid() && Initialized()
    {
      HashedPrepend(old(Chains), s);
      UntouchedBuckets(s);
      PrependedBucket(s);
    }

    /** ctest_impl_emplace_suite: the suite already named `suite.name`, or `suite` itself, inserted. */
    method EmplaceSuite(suite: Suite) returns (r: Suite)
      requires Valid() && Initialized()
      requires suite.node !in Links
      modifies this, heads, suite.node
      ensures Valid() && Initialized()
      ensures r.name == suite.name && r in Repr && Find(suite.name) == r
      ensures old(Find(suite.name)) != null ==>
        r == old(Find(suite.name)) && Chains == old(Chains) && Repr == old(Repr) && Links == old(Links)
      ensures old(Find(suite.name)) == null ==>
        r == suite && Repr == old(Repr) + {suite} && Links == old(Links) + {suite.node} &&
        Chains == old(Chains)[Bucket(suite.name) := [suite] + old(Chains[Bucket(suite.name)])]
      ensures old(UniqueNames()) ==> UniqueNames()
    {
      var found := FindSuite(suite.name);
      if found != null {
        FindIffNamed(suite.name);
        return found;
      }
      ghost var b := Bucket(suite.name);
      ghost var chain := Chains[b];
      AddSuite(suite);
      r := suite;
      assert Chains[b] == [suite] + chain;
      assert forall j :: 0 <= j < |chain| ==> chain[j].name != suite.name;
    }

    /**
      The first half of the load-time constructor that CTEST_SETUP(name) /
      CTEST_TEARDOWN(name) generate: init_once, then emplace a static suite
      with no hooks. The result is the suite find now returns for `name`; it
      carries the hooks declared before, if any; find answers as before for
      every other name.
     */
    method DeclareSuite(name: CString) returns (s: Suite)
      requires Valid()
      modifies this, heads
      ensures Valid() && Initialized()
      ensures s.name == name && s in Repr && Find(name) == s
      ensures s.Hooks() == if old(Find(name)) != null then old(Find(name).Hooks()) else SuiteHooks(None, None)
      ensures forall n: CString :: n != name ==> Find(n) == old(Find(n))
      ensures old(Repr) <= Repr && (s in old(Repr) || fresh(s))
      ensures fresh(Repr - old(Repr))
      ensures old(UniqueNames()) ==> UniqueNames()
    {
      InitOnce();
      ghost var chains := Chains;
      var suite := new Suite(name);
      s := EmplaceSuite(suite);
      forall n: CString | n != name ensures Find(n) == old(Find(n)) {
        FindInOther(chains[Bucket(n)], suite, n);
      }
    }

    /**
      The whole constructor: declare the suite, then set the hook on
      whichever suite emplace returned. Find then returns, for `name`, a
      suite carrying the hooks declared before with `member` set to `hook`;
      for every other name it returns the same suite, with the same hooks.
     */
    method RegisterFixture(name: CString, member: Member, hook: FuncPtr)
      requires Valid()
      modifies this, heads, Repr
      ensures Valid() && Initialized()
      ensures Find(name) != null && Find(name) in Repr
      ensures Find(name).Hooks() ==
        WithHook(if old(Find(name)) != null then old(Find(name).Hooks()) else SuiteHooks(None, None), member, hook)
      ensures forall n: CString :: n != name ==> Find(n) == old(Find(n))
      ensures forall n: CString :: n != name && Find(n) != null ==> Find(n).Hooks() == old(Find(n).Hooks())
      ensures old(UniqueNames()) ==> UniqueNames()
      ensures old(Repr) <= Repr && fresh(Repr - old(Repr))
    {
      var emplaced := DeclareSuite(name);
      label Declared:
      match member {
        case Setup => emplaced.setup := Some(hook);
        case Teardown => emplaced.teardown := Some(hook);
      }
      HooksAreNotLinks@Declared(this);
    }

    /**
      A CTEST_SETUP and a CTEST_TEARDOWN for one suite name, run in either
      order: find then returns one suite of that name carrying both hooks,
      and every other name keeps its suite and its hooks.
     */
    method RegisterSetupAndTeardown(name: CString, setup: FuncPtr, teardown: FuncPtr, setupFirst: bool)
      requires Valid()
      modifies this, heads, Repr
      ensures Valid() && Initialized()
      ensures Find(name) != null && Find(name).name == name
      ensures Find(name).Hooks() == SuiteHooks(Some(setup), Some(teardown))
      ensures forall n: CString :: n != name ==> Find(n) == old(Find(n))
      ensures forall n: CString :: n != name && Find(n) != null ==> Find(n).Hooks() == old(Find(n).Hooks())
      ensures old(UniqueNames()) ==> UniqueNames()
    {
      if setupFirst {
        RegisterFixture(name, Setup, setup);
        RegisterFixture(name, Teardown, teardown);
      } else {
        RegisterFixture(name, Teardown, teardown);
        RegisterFixture(name, Setup, setup);
      }
    }
  }

  datatype Member = Setup | Teardown

  /** A suite's hooks with `member` set to `hook`. */
  function WithHook(h: SuiteHooks, member: Member, hook: FuncPtr): SuiteHooks {
    match member
    case Setup => h.(setup := Some(hook))
    case Teardown => h.(teardown := Some(hook))
  }

  /** The hooks `name` has, in a name-to-hooks map, after a fixture declaration sets `member` to `hook`. */
  function Hooked(fixtures: map<CString, SuiteHooks>, name: CString, member: Member, hook: FuncPtr): SuiteHooks {
    WithHook(if name in fixtures then fixtures[name] else SuiteHooks(None, None), member, hook)
  }

  /**
    CTEST_SETUP and CTEST_TEARDOWN for one suite name, in either order, leave
    that name with both hooks, whatever it carried before.
   */
  lemma SetupAndTeardown(fixtures: map<CString, SuiteHooks>, name: CString, setup: FuncPtr, teardown: FuncPtr)
    ensures var f := fixtures[name := Hooked(fixtures, name, Setup, setup)];
      Hooked(f, name, Teardown, teardown) == SuiteHooks(Some(setup), Some(teardown))
    ensures var f := fixtures[name := Hooked(fixtures, name, Teardown, teardown)];
      Hooked(f, name, Setup, setup) == SuiteHooks(Some(setup), Some(teardown))
  {
  }

  /**
    After a fixture declaration the table holds the declared hooks: a map
    that described the table before describes it after, updated at the
    declared name.
   */
  twostate lemma RegisteredHolds(t: SuiteTable, name: CString, member: Member, hook: FuncPtr, fixtures: map<CString, SuiteHooks>)
    requires |old(t.Chains)| == HashSize && old(t.Holds(fixtures))
    requires |t.Chains| == HashSize && old(t.Repr) <= t.Repr
    requires t.Find(name) != null && t.Find(name) in t.Repr
    requires t.Find(name).Hooks() ==
      WithHook(if old(t.Find(name)) != null then old(t.Find(name).Hooks()) else SuiteHooks(None, None), member, hook)
    requires forall n: CString :: n != name ==> t.Find(n) == old(t.Find(n))
    requires forall n: CString :: n != name && t.Find(n) != null ==> t.Find(n).Hooks() == old(t.Find(n).Hooks())
    ensures t.Holds(fixtures[name := Hooked(fixtures, name, member, hook)])
  {
    var after := fixtures[name := Hooked(fixtures, name, member, hook)];
    forall n: CString | n != name
      ensures n in after ==> t.Find(n) != null && t.Find(n) in t.Repr && after[n] == t.Find(n).Hooks()
      ensures t.Find(n) != null ==> n in after
    {
    }
  }

  /** Setting hooks leaves the links, and so the table's validity, alone. */
  twostate lemma HooksAreNotLinks(t: SuiteTable)
    requires old(t.Valid()) && unchanged(t, t.heads)
    requires forall o: SNode :: o in t.Links ==> o.next == old(o.next)
    ensures t.Valid()
  {
    forall b | 0 <= b < HashSize ensures t.BucketValid(b) {
      assert old(t.BucketValid(b));
    }
  }

  /** Prepending a suite of another name does not change what a scan for `n` finds. */
  lemma FindInOther(chain: seq<Suite>, s: Suite, n: CString)
    requires s.name != n
    ensures FindIn([s] + chain, n) == FindIn(chain, n)
  {
    assert ([s] + chain)[1..] == chain;
  }
}
