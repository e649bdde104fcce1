/**
 * The bootstrap of an app's access needs: at start-up the app turns the
 * access needs of its configuration, grouped by necessity tier, into
 * AccessNeed records and one AccessNeedGroup per non-empty tier, and
 * attaches each group to the app actor.
 *
 * A configuration entry is either a string, a special right such as
 * `apods:ReadInbox`, or an object naming a registered class and access mode.
 * Both record kinds are posted to one store, an append-only log in which
 * record k has the URI `Local(k)`.
 */
module AccessNeeds {
  import opened Activities

  /** An object entry of the configuration: the class and mode an AccessNeed copies. */
  datatype NeedConfig = NeedConfig(registeredClass: Uri, accessMode: Multi)

  datatype Entry = Special(right: Uri) | Need(config: NeedConfig)

  /** One entry of the `accessNeeds` setting, in `Object.entries` order. */
  datatype Tier = Tier(necessity: string, entries: seq<Entry>)

  datatype Record =
    | AccessNeed(accessNecessity: Uri, accessMode: Multi, registeredClass: Uri)
    | AccessNeedGroup(accessNecessity: Uri, accessScenario: Uri, authenticatedAs: Uri,
                      hasAccessNeed: seq<Uri>, hasSpecialRights: seq<Uri>)

  const REQUIRED := "required"
  const ACCESS_REQUIRED := Ext("interop:AccessRequired")
  const ACCESS_OPTIONAL := Ext("interop:AccessOptional")
  const PERSONAL_ACCESS := Ext("interop:PersonalAccess")
  const SOCIAL_AGENT := Ext("interop:SocialAgent")

  /** The `interop:accessNecessity` of a tier's needs and of its group. */
  function Necessity(tier: string): (r: Uri)
    ensures r == ACCESS_REQUIRED <==> tier == REQUIRED
    ensures r == ACCESS_OPTIONAL <==> tier != REQUIRED
  {
    if tier == REQUIRED then ACCESS_REQUIRED else ACCESS_OPTIONAL
  }

  // ---------------------------------------------------------------------
  // Specification of what a tier posts

  /** The string entries among the first `j` of a configuration list, in order. */
  function SpecialsUpTo(es: seq<Entry>, j: nat): seq<Uri>
    requires j <= |es|
  {
    if j == 0 then []
    else SpecialsUpTo(es, j - 1) + (if es[j - 1].Special? then [es[j - 1].right] else [])
  }

  /** The object entries among the first `j` of a configuration list, in order. */
  function NeedsUpTo(es: seq<Entry>, j: nat): seq<NeedConfig>
    requires j <= |es|
  {
    if j == 0 then []
    else NeedsUpTo(es, j - 1) + (if es[j - 1].Need? then [es[j - 1].config] else [])
  }

  function Specials(es: seq<Entry>): seq<Uri>
  {
    SpecialsUpTo(es, |es|)
  }

  function Needs(es: seq<Entry>): seq<NeedConfig>
  {
    NeedsUpTo(es, |es|)
  }

  function AccessNeedFor(necessity: Uri, n: NeedConfig): Record
  {
    AccessNeed(necessity, n.accessMode, n.registeredClass)
  }

  /** One AccessNeed per object entry, in order. */
  function AccessNeedsFor(necessity: Uri, ns: seq<NeedConfig>): (r: seq<Record>)
    ensures |r| == |ns|
  {
    if |ns| == 0 then [] else [AccessNeedFor(necessity, ns[0])] + AccessNeedsFor(necessity, ns[1..])
  }

  lemma {:induction false} AccessNeedsAt(necessity: Uri, ns: seq<NeedConfig>, k: nat)
    requires k < |ns|
    ensures AccessNeedsFor(necessity, ns)[k] == AccessNeedFor(necessity, ns[k])
  {
    if k > 0 {
      AccessNeedsAt(necessity, ns[1..], k - 1);
    }
  }

  lemma {:induction false} AccessNeedsAppend(necessity: Uri, ns: seq<NeedConfig>, n: NeedConfig)
    ensures AccessNeedsFor(necessity, ns + [n]) == AccessNeedsFor(necessity, ns) + [AccessNeedFor(necessity, n)]
  {
    if |ns| > 0 {
      assert (ns + [n])[1..] == ns[1..] + [n];
      AccessNeedsAppend(necessity, ns[1..], n);
    } else {
      assert ns + [n] == [n];
    }
  }

  /** A tier once its entries are split: whether it posts anything at all, its
      necessity, its object entries and its special rights. */
  datatype Split = Split(nonEmpty: bool, necessity: Uri, needs: seq<NeedConfig>, specialRights: seq<Uri>)

  function SplitTier(t: Tier): Split
  {
    Split(|t.entries| > 0, Necessity(t.necessity), Needs(t.entries), Specials(t.entries))
  }

  function SplitTiers(tiers: seq<Tier>): seq<Split>
    decreases |tiers|
  {
    if |tiers| == 0 then [] else [SplitTier(tiers[0])] + SplitTiers(tiers[1..])
  }

  /** The group record of a tier whose AccessNeeds were posted from log position `b` on. */
  function GroupFor(b: nat, s: Split): Record
  {
    AccessNeedGroup(s.necessity, PERSONAL_ACCESS, SOCIAL_AGENT, Minted(b, |s.needs|), s.specialRights)
  }

  /** How many records a tier posts. */
  function Size(s: Split): nat
  {
    if s.nonEmpty then |s.needs| + 1 else 0
  }

  /** The records a tier posts on a log holding `b` records: nothing for an
      empty tier, else its AccessNeeds and then its group. */
  function TierRecords(b: nat, s: Split): seq<Record>
  {
    if s.nonEmpty then AccessNeedsFor(s.necessity, s.needs) + [GroupFor(b, s)] else []
  }

  /** The group URI of a tier, if it posts one. */
  function TierGroup(b: nat, s: Split): seq<Uri>
  {
    if s.nonEmpty then [Local(b + |s.needs|)] else []
  }

  /** Everything `initialize` posts, tier after tier. */
  function Posted(base: nat, splits: seq<Split>): seq<Record>
    decreases |splits|
  {
    if |splits| == 0 then []
    else TierRecords(base, splits[0]) + Posted(base + Size(splits[0]), splits[1..])
  }

  /** The groups `initialize` attaches to the app actor, in order. */
  function GroupUris(base: nat, splits: seq<Split>): seq<Uri>
    decreases |splits|
  {
    if |splits| == 0 then []
    else TierGroup(base, splits[0]) + GroupUris(base + Size(splits[0]), splits[1..])
  }

  function NonEmptyTiers(tiers: seq<Tier>): nat
    decreases |tiers|
  {
    if |tiers| == 0 then 0 else (if |tiers[0].entries| == 0 then 0 else 1) + NonEmptyTiers(tiers[1..])
  }

  // ---------------------------------------------------------------------
  // Lemmas on the specification

  /** The string entries become the special rights, verbatim: a right is
      listed exactly when the configuration lists it. */
  lemma {:induction false} SpecialsMembers(es: seq<Entry>, j: nat, r: Uri)
    requires j <= |es|
    ensures r in SpecialsUpTo(es, j) <==> Special(r) in es[..j]
  {
    if j > 0 {
      SpecialsMembers(es, j - 1, r);
      assert es[..j] == es[..j - 1] + [es[j - 1]];
    }
  }

  /** Each object entry yields an AccessNeed: the needs are exactly the
      object entries of the configuration. */
  lemma {:induction false} NeedsMembers(es: seq<Entry>, j: nat, n: NeedConfig)
    requires j <= |es|
    ensures n in NeedsUpTo(es, j) <==> Need(n) in es[..j]
  {
    if j > 0 {
      NeedsMembers(es, j - 1, n);
      assert es[..j] == es[..j - 1] + [es[j - 1]];
    }
  }

  /** The entries split exactly: every entry is counted once, as a need or as a special right. */
  lemma {:induction false} EntriesSplit(es: seq<Entry>, j: nat)
    requires j <= |es|
    ensures |NeedsUpTo(es, j)| + |SpecialsUpTo(es, j)| == j
  {
    if j > 0 {
      EntriesSplit(es, j - 1);
    }
  }

  /** For a whole configuration list. */
  lemma EntriesOfTier(es: seq<Entry>, n: NeedConfig, r: Uri)
    ensures n in Needs(es) <==> Need(n) in es
    ensures r in Specials(es) <==> Special(r) in es
    ensures |Needs(es)| + |Specials(es)| == |es|
  {
    NeedsMembers(es, |es|, n);
    SpecialsMembers(es, |es|, r);
    EntriesSplit(es, |es|);
    assert es[..|es|] == es;
  }

  /** The shape of one non-empty tier's records: an AccessNeed per object entry
      with the tier's necessity and the entry's class and mode, then the group,
      with the same necessity, listing exactly those AccessNeeds and the tier's
      special rights. */
  lemma TierShape(b: nat, t: Tier)
    requires |t.entries| > 0
    ensures |TierRecords(b, SplitTier(t))| == Size(SplitTier(t)) == |Needs(t.entries)| + 1
    ensures forall k :: 0 <= k < |Needs(t.entries)| ==>
      TierRecords(b, SplitTier(t))[k] ==
        AccessNeed(Necessity(t.necessity), Needs(t.entries)[k].accessMode, Needs(t.entries)[k].registeredClass)
    ensures TierRecords(b, SplitTier(t))[|Needs(t.entries)|] ==
      AccessNeedGroup(Necessity(t.necessity), PERSONAL_ACCESS, SOCIAL_AGENT,
                      Minted(b, |Needs(t.entries)|), Specials(t.entries))
    ensures TierGroup(b, SplitTier(t)) == [Local(b + |Needs(t.entries)|)]
  {
    var s := SplitTier(t);
    forall k | 0 <= k < |s.needs|
      ensures TierRecords(b, s)[k] == AccessNeed(s.necessity, s.needs[k].accessMode, s.needs[k].registeredClass)
    {
      AccessNeedsAt(s.necessity, s.needs, k);
    }
  }

  /** An empty tier posts nothing and attaches nothing. */
  lemma EmptyTier(b: nat, t: Tier)
    requires |t.entries| == 0
    ensures TierRecords(b, SplitTier(t)) == [] && TierGroup(b, SplitTier(t)) == [] && Size(SplitTier(t)) == 0
  {
  }

  /** One group is attached per non-empty tier. */
  lemma {:induction false} OneGroupPerTier(base: nat, tiers: seq<Tier>)
    ensures |GroupUris(base, SplitTiers(tiers))| == NonEmptyTiers(tiers)
    decreases |tiers|
  {
    if |tiers| > 0 {
      OneGroupPerTier(base + Size(SplitTier(tiers[0])), tiers[1..]);
    }
  }

  lemma TierSize(b: nat, s: Split)
    ensures |TierRecords(b, s)| == Size(s)
  {
  }

  lemma TierGroupAt(b: nat, s: Split)
    requires s.nonEmpty
    ensures TierRecords(b, s)[|s.needs|] == GroupFor(b, s)
  {
  }

  /** `u` names an AccessNeedGroup among `all`, the records posted from log position `base` on. */
  predicate NamesGroup(all: seq<Record>, base: nat, u: Uri)
  {
    u.Local? && base <= u.n < base + |all| && all[u.n - base].AccessNeedGroup?
  }

  /** One step of the tier recursion, for the records and the attached groups alike. */
  lemma PostedUnfold(base: nat, splits: seq<Split>, all: seq<Record>, gs: seq<Uri>,
                     s: Split, b2: nat, rest: seq<Record>, rgs: seq<Uri>)
    requires |splits| > 0 && all == Posted(base, splits) && gs == GroupUris(base, splits)
    requires s == splits[0] && b2 == base + Size(s)
    requires rest == Posted(b2, splits[1..]) && rgs == GroupUris(b2, splits[1..])
    ensures all == TierRecords(base, s) + rest && gs == TierGroup(base, s) + rgs
    ensures |TierRecords(base, s)| == Size(s)
  {
  }

  /** Every attached URI names an AccessNeedGroup that the tiers posted. */
  lemma {:induction false} GroupUrisPointToGroups(base: nat, splits: seq<Split>, all: seq<Record>, gs: seq<Uri>, i: nat)
    requires all == Posted(base, splits) && gs == GroupUris(base, splits)
    requires i < |gs|
    ensures NamesGroup(all, base, gs[i])
    decreases |splits|
  {
    var s := splits[0];
    var b2 := base + Size(s);
    var rest := Posted(b2, splits[1..]);
    var rgs := GroupUris(b2, splits[1..]);
    PostedUnfold(base, splits, all, gs, s, b2, rest, rgs);
    if i < |TierGroup(base, s)| {
      OwnGroup(all, gs, base, s, rest, rgs, i);
    } else {
      GroupUrisPointToGroups(b2, splits[1..], rest, rgs, i - |TierGroup(base, s)|);
      LaterGroup(all, gs, TierRecords(base, s), rest, TierGroup(base, s), rgs, base, b2, i);
    }
  }

  lemma OwnGroup(all: seq<Record>, gs: seq<Uri>, base: nat, s: Split, rest: seq<Record>, rgs: seq<Uri>, i: nat)
    requires all == TierRecords(base, s) + rest && gs == TierGroup(base, s) + rgs
    requires i < |TierGroup(base, s)|
    ensures NamesGroup(all, base, gs[i])
  {
    TierSize(base, s);
    TierGroupAt(base, s);
    ConcatAt(TierRecords(base, s), rest, |s.needs|);
    ConcatAt(TierGroup(base, s), rgs, i);
  }

  lemma LaterGroup(all: seq<Record>, gs: seq<Uri>, mine: seq<Record>, rest: seq<Record>, mg: seq<Uri>, rgs: seq<Uri>,
                   base: nat, b2: nat, i: nat)
    requires all == mine + rest && gs == mg + rgs && b2 == base + |mine|
    requires |mg| <= i < |gs| && NamesGroup(rest, b2, rgs[i - |mg|])
    ensures NamesGroup(all, base, gs[i])
  {
    ConcatAt(mg, rgs, i);
    ConcatAt(mine, rest, gs[i].n - base);
  }

  /** Conversely, every AccessNeedGroup that `initialize` posts is attached. */
  lemma {:induction false} PostedGroupsAttached(base: nat, splits: seq<Split>, k: nat)
    requires k < |Posted(base, splits)| && Posted(base, splits)[k].AccessNeedGroup?
    ensures Local(base + k) in GroupUris(base, splits)
    decreases |splits|
  {
    var s := splits[0];
    var b2 := base + Size(s);
    var rest := Posted(b2, splits[1..]);
    var rgs := GroupUris(b2, splits[1..]);
    PostedUnfold(base, splits, Posted(base, splits), GroupUris(base, splits), s, b2, rest, rgs);
    var mine := TierRecords(base, s);
    ConcatAt(mine, rest, k);
    if k < |mine| {
      var needs := AccessNeedsFor(s.necessity, s.needs);
      ConcatAt(needs, [GroupFor(base, s)], k);
      if k < |s.needs| {
        AccessNeedsAt(s.necessity, s.needs, k);
        assert false;
      }
      assert TierGroup(base, s) == [Local(base + k)];
    } else {
      PostedGroupsAttached(b2, splits[1..], k - |mine|);
      assert Local(base + k) == Local(b2 + (k - |mine|));
    }
  }

  /** The attached URIs lie at or after `base` and strictly increase:
      no group is attached twice. */
  lemma {:induction false} GroupUrisIncreasing(base: nat, splits: seq<Split>)
    ensures forall i :: 0 <= i < |GroupUris(base, splits)| ==>
      GroupUris(base, splits)[i].Local? && base <= GroupUris(base, splits)[i].n
    ensures forall i, j :: 0 <= i < j < |GroupUris(base, splits)| ==>
      GroupUris(base, splits)[i].n < GroupUris(base, splits)[j].n
    decreases |splits|
  {
    if |splits| > 0 {
      var s := splits[0];
      GroupUrisIncreasing(base + Size(s), splits[1..]);
      assert GroupUris(base, splits) == TierGroup(base, s) + GroupUris(base + Size(s), splits[1..]);
    }
  }

  /** One entry of the loop: a string adds a special right, an object a need. */
  lemma EntryStep(es: seq<Entry>, j: nat)
    requires j < |es|
    ensures es[j].Special? ==> NeedsUpTo(es, j + 1) == NeedsUpTo(es, j) &&
                               SpecialsUpTo(es, j + 1) == SpecialsUpTo(es, j) + [es[j].right]
    ensures es[j].Need? ==> NeedsUpTo(es, j + 1) == NeedsUpTo(es, j) + [es[j].config] &&
                            SpecialsUpTo(es, j + 1) == SpecialsUpTo(es, j)
  {
    assert NeedsUpTo(es, j) + [] == NeedsUpTo(es, j);
    assert SpecialsUpTo(es, j) + [] == SpecialsUpTo(es, j);
  }

  /** The group posted after a tier's AccessNeeds completes the tier's records. */
  lemma TierClose(before: seq<Record>, b: nat, t: Tier, needsPosted: seq<Record>, log: seq<Record>)
    requires |t.entries| > 0
    requires needsPosted == before + AccessNeedsFor(Necessity(t.necessity), Needs(t.entries))
    requires log == needsPosted + [AccessNeedGroup(Necessity(t.necessity), PERSONAL_ACCESS, SOCIAL_AGENT,
                                                   Minted(b, |Needs(t.entries)|), Specials(t.entries))]
    ensures log == before + TierRecords(b, SplitTier(t))
  {
    var s := SplitTier(t);
    AppendAssoc(before, AccessNeedsFor(s.necessity, s.needs), [GroupFor(b, s)]);
  }

  /** Splitting the tiers from the i-th on splits the i-th, then the rest. */
  lemma SplitTiersAt(tiers: seq<Tier>, i: nat)
    requires i < |tiers|
    ensures SplitTiers(tiers[i..]) == [SplitTier(tiers[i])] + SplitTiers(tiers[i + 1..])
  {
    assert tiers[i..][0] == tiers[i] && tiers[i..][1..] == tiers[i + 1..];
  }

  /** One step of the tier loop: once the first tier's records are posted,
      what is left to post is the other tiers' records. */
  lemma PostedStep(before: seq<Record>, b: nat, s: Split, later: seq<Split>, log: seq<Record>, total: seq<Record>,
                    next: nat)
    requires total == before + Posted(b, [s] + later)
    requires log == before + TierRecords(b, s)
    requires next == b + Size(s)
    ensures total == log + Posted(next, later)
  {
    assert ([s] + later)[0] == s && ([s] + later)[1..] == later;
    assert Posted(b, [s] + later) == TierRecords(b, s) + Posted(b + Size(s), later);
    AppendAssoc(before, TierRecords(b, s), Posted(b + Size(s), later));
  }

  /** The same step for the attached groups. */
  lemma AttachedStep(before: seq<Uri>, b: nat, s: Split, later: seq<Split>, attached: seq<Uri>, total: seq<Uri>,
                      next: nat)
    requires total == before + GroupUris(b, [s] + later)
    requires attached == before + TierGroup(b, s)
    requires next == b + Size(s)
    ensures total == attached + GroupUris(next, later)
  {
    assert ([s] + later)[0] == s && ([s] + later)[1..] == later;
    assert GroupUris(b, [s] + later) == TierGroup(b, s) + GroupUris(b + Size(s), later);
    AppendAssoc(before, TierGroup(b, s), GroupUris(b + Size(s), later));
  }

  // ---------------------------------------------------------------------
  // The app backend

  class Backend {
    /** The store holding the AccessNeed and AccessNeedGroup containers. */
    var log: seq<Record>
    /** The groups attached to the app actor (`actors.attachAccessNeedGroup`), in order. */
    var attached: seq<Uri>

    constructor ()
      ensures log == [] && attached == []
    {
      log, attached := [], [];
    }

    method Post(r: Record) returns (id: Uri)
      modifies this
      ensures log == old(log) + [r] && id == Local(|old(log)|)
      ensures attached == old(attached)
    {
      id := Local(|log|);
      log := log + [r];
    }

    /** The body of the tier loop of `initialize`: split the entries, post an
        AccessNeed per object entry, then post and attach the group. */
    method InitializeTier(t: Tier) returns (group: seq<Uri>)
      modifies this
      ensures log == old(log) + TierRecords(|old(log)|, SplitTier(t))
      ensures group == TierGroup(|old(log)|, SplitTier(t))
      ensures attached == old(attached) + group
    {
      group := [];
      if |t.entries| == 0 {
        return;
      }
      var base := |log|;
      var necessity := Necessity(t.necessity);
      var needUris: seq<Uri> := [];
      var specialRights: seq<Uri> := [];
      ghost var done: seq<NeedConfig> := [];
      var j := 0;
      while j < |t.entries|
        invariant 0 <= j <= |t.entries|
        invariant specialRights == SpecialsUpTo(t.entries, j)
        invariant done == NeedsUpTo(t.entries, j)
        invariant log == old(log) + AccessNeedsFor(necessity, done)
        invariant needUris == Minted(base, |done|)
        invariant attached == old(attached)
      {
        var e := t.entries[j];
        EntryStep(t.entries, j);
        if e.Special? {
          specialRights := specialRights + [e.right];
        } else {
          var id := Post(AccessNeedFor(necessity, e.config));
          AccessNeedsAppend(necessity, done, e.config);
          MintedNext(base, |done|);
          needUris := needUris + [id];
          done := done + [e.config];
        }
        j := j + 1;
      }
      assert done == Needs(t.entries) && specialRights == Specials(t.entries);
      ghost var needsPosted := log;
      var id := Post(AccessNeedGroup(necessity, PERSONAL_ACCESS, SOCIAL_AGENT, needUris, specialRights));
      TierClose(old(log), base, t, needsPosted, log);
      attached := attached + [id];
      group := [id];
    }

    /** `initialize`: every tier of the configuration, in order. */
    method Initialize(tiers: seq<Tier>)
      modifies this
      ensures log == old(log) + Posted(|old(log)|, SplitTiers(tiers))
      ensures attached == old(attached) + GroupUris(|old(log)|, SplitTiers(tiers))
    {
      var base := |log|;
      ghost var total := old(log) + Posted(base, SplitTiers(tiers));
      ghost var totalAttached := old(attached) + GroupUris(base, SplitTiers(tiers));
      var i := 0;
      while i < |tiers|
        invariant 0 <= i <= |tiers|
        invariant total == log + Posted(|log|, SplitTiers(tiers[i..]))
        invariant totalAttached == attached + GroupUris(|log|, SplitTiers(tiers[i..]))
      {
        ghost var before := log;
        ghost var beforeAttached := attached;
        ghost var b := |log|;
        ghost var s := SplitTier(tiers[i]);
        ghost var later := SplitTiers(tiers[i + 1..]);
        SplitTiersAt(tiers, i);
        TierSize(b, s);
        var group := InitializeTier(tiers[i]);
        assert |log| == b + Size(s);
        PostedStep(before, b, s, later, log, total, |log|);
        AttachedStep(beforeAttached, b, s, later, attached, totalAttached, |log|);
        i := i + 1;
      }
      assert tiers[i..] == [];
      assert Posted(|log|, []) == [] && GroupUris(|log|, []) == [];
      assert log + [] == log && attached + [] == attached;
    }
  }

  // ---------------------------------------------------------------------
  // The example app's configuration

  const AS_PREFIX := "https://www.w3.org/ns/activitystreams#"
  const EVENT := NeedConfig(Ext(AS_PREFIX + "Event"), Many([Ext("acl:Read"), Ext("acl:Create")]))
  const INDIVIDUAL := NeedConfig(Ext("http://www.w3.org/2006/vcard/ns#Individual"), One(Ext("acl:Read")))
  const REQUIRED_ENTRIES := [Need(EVENT), Need(INDIVIDUAL), Special(Ext("apods:ReadInbox")), Special(Ext("apods:ReadOutbox"))]
  const OPTIONAL_ENTRIES := [Special(Ext("apods:SendNotification"))]
  const ExampleTiers := [Tier(REQUIRED, REQUIRED_ENTRIES), Tier("optional", OPTIONAL_ENTRIES)]

  const REQUIRED_SPLIT := Split(true, ACCESS_REQUIRED, [EVENT, INDIVIDUAL], [Ext("apods:ReadInbox"), Ext("apods:ReadOutbox")])
  const OPTIONAL_SPLIT := Split(true, ACCESS_OPTIONAL, [], [Ext("apods:SendNotification")])

  /** The required tier holds two object entries and two special rights. */
  lemma ExampleRequiredSplit()
    ensures SplitTier(ExampleTiers[0]) == REQUIRED_SPLIT
  {
    var req := REQUIRED_ENTRIES;
    assert NeedsUpTo(req, 1) == [EVENT] && SpecialsUpTo(req, 1) == [];
    assert NeedsUpTo(req, 2) == [EVENT, INDIVIDUAL] && SpecialsUpTo(req, 2) == [];
    assert NeedsUpTo(req, 3) == [EVENT, INDIVIDUAL] && SpecialsUpTo(req, 3) == [Ext("apods:ReadInbox")];
  }

  /** The optional tier holds a single special right. */
  lemma ExampleOptionalSplit()
    ensures SplitTier(ExampleTiers[1]) == OPTIONAL_SPLIT
  {
    assert "optional"[0] != REQUIRED[0];
  }

  lemma ExamplePosted()
    ensures Posted(0, [REQUIRED_SPLIT, OPTIONAL_SPLIT]) == [
      AccessNeed(ACCESS_REQUIRED, EVENT.accessMode, EVENT.registeredClass),
      AccessNeed(ACCESS_REQUIRED, INDIVIDUAL.accessMode, INDIVIDUAL.registeredClass),
      AccessNeedGroup(ACCESS_REQUIRED, PERSONAL_ACCESS, SOCIAL_AGENT, [Local(0), Local(1)],
                      [Ext("apods:ReadInbox"), Ext("apods:ReadOutbox")]),
      AccessNeedGroup(ACCESS_OPTIONAL, PERSONAL_ACCESS, SOCIAL_AGENT, [], [Ext("apods:SendNotification")])]
    ensures GroupUris(0, [REQUIRED_SPLIT, OPTIONAL_SPLIT]) == [Local(2), Local(3)]
  {
    var splits := [REQUIRED_SPLIT, OPTIONAL_SPLIT];
    assert splits[1..] == [OPTIONAL_SPLIT] && splits[1..][1..] == [];
    assert Minted(0, 2) == [Local(0), Local(1)] && Minted(3, 0) == [];
    assert AccessNeedsFor(ACCESS_REQUIRED, [EVENT, INDIVIDUAL]) ==
      [AccessNeedFor(ACCESS_REQUIRED, EVENT), AccessNeedFor(ACCESS_REQUIRED, INDIVIDUAL)];
    assert AccessNeedsFor(ACCESS_OPTIONAL, []) == [];
    assert Posted(3, [OPTIONAL_SPLIT]) == TierRecords(3, OPTIONAL_SPLIT);
    assert GroupUris(3, [OPTIONAL_SPLIT]) == [Local(3)];
  }

  /** On an empty store the example configuration posts two AccessNeeds, a
      required group holding them and two special rights, then an optional
      group with no AccessNeed and one special right; both groups are attached. */
  lemma ExampleConfiguration()
    ensures Posted(0, SplitTiers(ExampleTiers)) == [
      AccessNeed(ACCESS_REQUIRED, EVENT.accessMode, EVENT.registeredClass),
      AccessNeed(ACCESS_REQUIRED, INDIVIDUAL.accessMode, INDIVIDUAL.registeredClass),
      AccessNeedGroup(ACCESS_REQUIRED, PERSONAL_ACCESS, SOCIAL_AGENT, [Local(0), Local(1)],
                      [Ext("apods:ReadInbox"), Ext("apods:ReadOutbox")]),
      AccessNeedGroup(ACCESS_OPTIONAL, PERSONAL_ACCESS, SOCIAL_AGENT, [], [Ext("apods:SendNotification")])]
    ensures GroupUris(0, SplitTiers(ExampleTiers)) == [Local(2), Local(3)]
  {
    ExampleRequiredSplit();
    ExampleOptionalSplit();
    assert ExampleTiers[1..][1..] == [];
    assert SplitTiers(ExampleTiers[1..]) == [OPTIONAL_SPLIT];
    assert SplitTiers(ExampleTiers) == [REQUIRED_SPLIT, OPTIONAL_SPLIT];
    ExamplePosted();
  }
}
