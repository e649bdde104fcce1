/**
 * The installation protocol of a user's pod: the Install handler that turns
 * the user's consent into DataGrant, AccessGrant and ApplicationRegistration
 * records, the Reject handler through which the app cancels a registration,
 * and the Uninstall handler that asks for the registration to be deleted.
 *
 * The pod's record store is an append-only log: `post` appends a record and
 * returns `Local(n)` with n its position; deleting records adds their URIs
 * to `removed`. The app's remote descriptor (its AccessNeedGroups, AccessNeeds
 * and AccessDescriptionSets, fetched with ldp.remote.get) is passed in
 * already resolved.
 */
module Installation {
  import opened Activities

  /** An AccessNeed as declared by the app (only the fields a DataGrant copies). */
  datatype NeedRef = NeedRef(uri: Uri, registeredClass: Uri, accessMode: Multi)

  /** An AccessNeedGroup of the app: its needs and its special rights, in declaration order. */
  datatype NeedGroup = NeedGroup(uri: Uri, needs: seq<NeedRef>, specialRights: seq<Uri>)

  datatype ClassDescription = ClassDescription(uri: Uri, describedClass: Uri)

  /** An AccessDescriptionSet; `language` is absent when the set declares none. */
  datatype DescriptionSet = DescriptionSet(uri: Uri, language: Option<string>, classDescriptions: seq<ClassDescription>)

  /** The app's descriptor; `descriptionSets` is None when the app has no
      interop:hasAccessDescriptionSet (an empty list is present, as in JavaScript). */
  datatype AppDescriptor = AppDescriptor(groups: seq<NeedGroup>, descriptionSets: Option<seq<DescriptionSet>>)

  /** Timestamps from `new Date().toISOString()` are opaque values. */
  type Timestamp = string

  const SCOPE_ALL := Ext("interop:All")
  const EN := "en"

  datatype Record =
    | DataGrant(dataOwner: Uri, grantee: Uri, registeredClass: Uri, accessMode: Multi,
                scopeOfGrant: Uri, satisfiesAccessNeed: Uri)
    | AccessGrant(grantedBy: Uri, grantedAt: Timestamp, grantee: Uri, hasAccessNeedGroup: Uri,
                  hasDataGrant: seq<Uri>, specialRights: seq<Uri>)
    | Registration(registeredBy: Uri, registeredAt: Timestamp, updatedAt: Timestamp,
                   registeredAgent: Uri, hasAccessGrant: seq<Uri>, preferredForClass: seq<Uri>)

  /** An activity posted to `actor`'s outbox. */
  datatype Posted = Posted(actor: Uri, typ: string, obj: Uri, to: Uri)

  datatype Error = NoDescriptionSet | RegistrationNotFound | NotOwner | NotForActor

  datatype Outcome = Done | Failed(error: Error)

  /** What one Install binds together: the user who emits it, the app, the
      time stamped on the records and the lists the user accepted, as the
      activity carries them. */
  datatype Consent = Consent(emitter: Uri, app: Uri, now: Timestamp,
                             acceptedNeeds: Listing, acceptedRights: Listing)

  // ---------------------------------------------------------------------
  // Specification of the grants an Install produces

  /** The guard on the accepted field holds and `.includes` finds `u` in it. */
  predicate Accepted(accepted: Listing, u: Uri)
  {
    Given(accepted) && Includes(accepted, u)
  }

  /** The first `j` needs, filtered by the accepted list, in declaration order. */
  function NeedsUpTo(needs: seq<NeedRef>, accepted: Listing, j: nat): seq<NeedRef>
    requires j <= |needs|
  {
    if j == 0 then []
    else NeedsUpTo(needs, accepted, j - 1) + (if Accepted(accepted, needs[j - 1].uri) then [needs[j - 1]] else [])
  }

  /** The first `j` special rights, filtered by the accepted list, in declaration order. */
  function RightsUpTo(rights: seq<Uri>, accepted: Listing, j: nat): seq<Uri>
    requires j <= |rights|
  {
    if j == 0 then []
    else RightsUpTo(rights, accepted, j - 1) + (if Accepted(accepted, rights[j - 1]) then [rights[j - 1]] else [])
  }

  function GrantedNeeds(g: NeedGroup, accepted: Listing): seq<NeedRef>
  {
    NeedsUpTo(g.needs, accepted, |g.needs|)
  }

  function GrantedRights(g: NeedGroup, accepted: Listing): seq<Uri>
  {
    RightsUpTo(g.specialRights, accepted, |g.specialRights|)
  }

  function DataGrantFor(c: Consent, n: NeedRef): Record
  {
    DataGrant(c.emitter, c.app, n.registeredClass, n.accessMode, SCOPE_ALL, n.uri)
  }

  /** One DataGrant per need, in order. */
  function DataGrantsFor(c: Consent, needs: seq<NeedRef>): (r: seq<Record>)
    ensures |r| == |needs|
  {
    if |needs| == 0 then [] else [DataGrantFor(c, needs[0])] + DataGrantsFor(c, needs[1..])
  }

  lemma {:induction false} DataGrantsAt(c: Consent, needs: seq<NeedRef>, k: nat)
    requires k < |needs|
    ensures DataGrantsFor(c, needs)[k] == DataGrantFor(c, needs[k])
  {
    if k > 0 {
      DataGrantsAt(c, needs[1..], k - 1);
    }
  }

  lemma {:induction false} DataGrantsAppend(c: Consent, needs: seq<NeedRef>, n: NeedRef)
    ensures DataGrantsFor(c, needs + [n]) == DataGrantsFor(c, needs) + [DataGrantFor(c, n)]
  {
    if |needs| > 0 {
      assert (needs + [n])[1..] == needs[1..] + [n];
      DataGrantsAppend(c, needs[1..], n);
    } else {
      assert needs + [n] == [n];
    }
  }

  /** What one AccessNeedGroup contributes once the accepted lists are applied. */
  datatype Selection = Selection(group: Uri, needs: seq<NeedRef>, rights: seq<Uri>)

  function Select(c: Consent, g: NeedGroup): Selection
  {
    Selection(g.uri, GrantedNeeds(g, c.acceptedNeeds), GrantedRights(g, c.acceptedRights))
  }

  /** A group yields an AccessGrant when at least one need or right of it was accepted. */
  predicate Yields(s: Selection)
  {
    |s.needs| > 0 || |s.rights| > 0
  }

  /** How many records one group posts. */
  function Size(s: Selection): nat
  {
    |s.needs| + (if Yields(s) then 1 else 0)
  }

  /** The records posted for one group when the log holds `b` records:
      its DataGrants, then its AccessGrant listing them. */
  function GroupRecords(b: nat, c: Consent, s: Selection): seq<Record>
  {
    DataGrantsFor(c, s.needs) +
    (if Yields(s) then [AccessGrant(c.emitter, c.now, c.app, s.group, Minted(b, |s.needs|), s.rights)] else [])
  }

  /** The AccessGrant URI posted for one group, if any. */
  function GroupAccessGrant(b: nat, s: Selection): seq<Uri>
  {
    if Yields(s) then [Local(b + |s.needs|)] else []
  }

  /** The selections of the groups, in declaration order. */
  function Selections(c: Consent, groups: seq<NeedGroup>): seq<Selection>
    decreases |groups|
  {
    if |groups| == 0 then [] else [Select(c, groups[0])] + Selections(c, groups[1..])
  }

  /** Every record the group loop of an Install posts, group after group,
      on a log that holds `base` records. */
  function Grants(base: nat, c: Consent, sels: seq<Selection>): seq<Record>
    decreases |sels|
  {
    if |sels| == 0 then []
    else GroupRecords(base, c, sels[0]) + Grants(base + Size(sels[0]), c, sels[1..])
  }

  /** The AccessGrant URIs collected for the registration's hasAccessGrant, in group order. */
  function AccessGrantIds(base: nat, sels: seq<Selection>): seq<Uri>
    decreases |sels|
  {
    if |sels| == 0 then []
    else GroupAccessGrant(base, sels[0]) + AccessGrantIds(base + Size(sels[0]), sels[1..])
  }

  // ---------------------------------------------------------------------
  // Specification of the choice of class descriptions

  /** The index of the last set among the first `i` whose language equals `lang`. */
  function LastInLanguage(sets: seq<DescriptionSet>, lang: Option<string>, i: nat): (r: Option<nat>)
    requires i <= |sets|
    ensures r.Some? ==> r.value < i && sets[r.value].language == lang
    ensures r.Some? ==> forall j :: r.value < j < i ==> sets[j].language != lang
    ensures r.None? ==> forall j :: 0 <= j < i ==> sets[j].language != lang
  {
    if i == 0 then None
    else if sets[i - 1].language == lang then Some(i - 1)
    else LastInLanguage(sets, lang, i - 1)
  }

  function ChoiceAt(sets: seq<DescriptionSet>, r: Option<nat>): Option<seq<ClassDescription>>
    requires r.Some? ==> r.value < |sets|
  {
    match r
    case Some(k) => Some(sets[k].classDescriptions)
    case None => None
  }

  /** The class descriptions the Install handler iterates over, or None when
      neither a set in the user's locale nor an English one exists. */
  function Chosen(sets: seq<DescriptionSet>, locale: Option<string>): Option<seq<ClassDescription>>
  {
    var local := LastInLanguage(sets, locale, |sets|);
    if local.Some? then ChoiceAt(sets, local) else ChoiceAt(sets, LastInLanguage(sets, Some(EN), |sets|))
  }

  // ---------------------------------------------------------------------
  // Queries on the record store

  predicate Live(log: seq<Record>, removed: set<Uri>, u: Uri)
  {
    u.Local? && u.n < |log| && u !in removed
  }

  /** The collaborator `app-registrations.preferredAppForClass`, assumed to
      report whether a live registration already claims the class. */
  predicate Claimed(log: seq<Record>, removed: set<Uri>, cls: Uri)
  {
    exists k :: 0 <= k < |log| && Local(k) !in removed && log[k].Registration? && cls in log[k].preferredForClass
  }

  /** The classes of the first `k` descriptions that no live registration claims, in order. */
  function UnclaimedUpTo(log: seq<Record>, removed: set<Uri>, cds: seq<ClassDescription>, k: nat): seq<Uri>
    requires k <= |cds|
  {
    if k == 0 then []
    else
      var cls := cds[k - 1].describedClass;
      UnclaimedUpTo(log, removed, cds, k - 1) + (if Claimed(log, removed, cls) then [] else [cls])
  }

  function Unclaimed(log: seq<Record>, removed: set<Uri>, cds: seq<ClassDescription>): seq<Uri>
  {
    UnclaimedUpTo(log, removed, cds, |cds|)
  }

  function DescriptionUris(cds: seq<ClassDescription>): seq<Uri>
  {
    seq(|cds|, i requires 0 <= i < |cds| => cds[i].uri)
  }

  /** The collaborator `app-registrations.getForApp`: the first live registration whose agent is `app`. */
  function RegistrationForApp(log: seq<Record>, removed: set<Uri>, app: Uri, from: nat): (r: Option<Uri>)
    requires from <= |log|
    ensures r.Some? ==> Live(log, removed, r.value) && from <= r.value.n
    ensures r.Some? ==> log[r.value.n].Registration? && log[r.value.n].registeredAgent == app
    ensures r.None? ==> forall k :: from <= k < |log| && Local(k) !in removed && log[k].Registration? ==>
      log[k].registeredAgent != app
    decreases |log| - from
  {
    if from == |log| then None
    else if Local(from) !in removed && log[from].Registration? && log[from].registeredAgent == app then Some(Local(from))
    else RegistrationForApp(log, removed, app, from + 1)
  }

  /** What deleting a registration removes, assuming the store cascades the
      deletion to its AccessGrants and their DataGrants. */
  function Cascade(log: seq<Record>, reg: Uri): set<Uri>
    requires reg.Local? && reg.n < |log| && log[reg.n].Registration?
  {
    var grants := log[reg.n].hasAccessGrant;
    {reg} + (set g | g in grants) +
    (set g, d | g in grants && g.Local? && g.n < |log| && log[g.n].AccessGrant? && d in log[g.n].hasDataGrant :: d)
  }

  // ---------------------------------------------------------------------
  // Lemmas on the specification

  /** A need yields a DataGrant exactly when it is declared in the group and accepted. */
  lemma {:induction false} NeedsUpToMembers(needs: seq<NeedRef>, accepted: Listing, j: nat, n: NeedRef)
    requires j <= |needs|
    ensures n in NeedsUpTo(needs, accepted, j) <==> n in needs[..j] && Accepted(accepted, n.uri)
    ensures |NeedsUpTo(needs, accepted, j)| <= j
  {
    if j > 0 {
      NeedsUpToMembers(needs, accepted, j - 1, n);
      assert needs[..j] == needs[..j - 1] + [needs[j - 1]];
    }
  }

  /** A special right is recorded exactly when it is declared in the group and accepted. */
  lemma {:induction false} RightsUpToMembers(rights: seq<Uri>, accepted: Listing, j: nat, r: Uri)
    requires j <= |rights|
    ensures r in RightsUpTo(rights, accepted, j) <==> r in rights[..j] && Accepted(accepted, r)
    ensures |RightsUpTo(rights, accepted, j)| <= j
  {
    if j > 0 {
      RightsUpToMembers(rights, accepted, j - 1, r);
      assert rights[..j] == rights[..j - 1] + [rights[j - 1]];
    }
  }

  /** For each group: a DataGrant exactly for the declared and accepted needs,
      a special right exactly for the declared and accepted ones. */
  lemma GrantedMembers(g: NeedGroup, c: Consent, n: NeedRef, r: Uri)
    ensures n in GrantedNeeds(g, c.acceptedNeeds) <==> n in g.needs && Accepted(c.acceptedNeeds, n.uri)
    ensures r in GrantedRights(g, c.acceptedRights) <==> r in g.specialRights && Accepted(c.acceptedRights, r)
  {
    NeedsUpToMembers(g.needs, c.acceptedNeeds, |g.needs|, n);
    RightsUpToMembers(g.specialRights, c.acceptedRights, |g.specialRights|, r);
    assert g.needs[..|g.needs|] == g.needs;
    assert g.specialRights[..|g.specialRights|] == g.specialRights;
  }

  /** When the activity carries no accepted list of a kind (the field is
      absent or an empty string), nothing of that kind is granted. */
  lemma NothingAcceptedNothingGranted(g: NeedGroup, accepted: Listing)
    ensures !Given(accepted) ==> GrantedNeeds(g, accepted) == [] && GrantedRights(g, accepted) == []
  {
    if !Given(accepted) {
      NoneUpTo(g, accepted, |g.needs|, |g.specialRights|);
    }
  }

  lemma {:induction false} NoneUpTo(g: NeedGroup, accepted: Listing, j: nat, k: nat)
    requires j <= |g.needs| && k <= |g.specialRights| && !Given(accepted)
    ensures NeedsUpTo(g.needs, accepted, j) == [] && RightsUpTo(g.specialRights, accepted, k) == []
  {
    if j > 0 { NoneUpTo(g, accepted, j - 1, 0); }
    if k > 0 { NoneUpTo(g, accepted, 0, k - 1); }
  }

  /** A single accepted value is a string, on which `.includes` tests for a
      substring: accepting `.../needs/10` alone also accepts `.../needs/1`,
      which an array holding the same URI does not. */
  lemma SingleAcceptedValueMatchesSubstrings()
    ensures Accepted(Text("https://app.example/needs/10"), Ext("https://app.example/needs/1"))
    ensures !Accepted(Listed([Ext("https://app.example/needs/10")]), Ext("https://app.example/needs/1"))
  {
    var t, s := "https://app.example/needs/1", "https://app.example/needs/10";
    assert s[..|t|] == t;
    assert Ext(t) != Ext(s) by { assert |t| != |s|; }
  }

  /** One need of the loop: it is kept exactly when it is accepted. */
  lemma NeedStep(needs: seq<NeedRef>, accepted: Listing, j: nat)
    requires j < |needs|
    ensures Accepted(accepted, needs[j].uri) ==> NeedsUpTo(needs, accepted, j + 1) == NeedsUpTo(needs, accepted, j) + [needs[j]]
    ensures !Accepted(accepted, needs[j].uri) ==> NeedsUpTo(needs, accepted, j + 1) == NeedsUpTo(needs, accepted, j)
  {
    assert NeedsUpTo(needs, accepted, j) + [] == NeedsUpTo(needs, accepted, j);
  }

  /** One group's records: one DataGrant per accepted need, then an AccessGrant
      iff something was granted, whose lists are exactly the minted DataGrants
      and the accepted special rights. */
  lemma GroupRecordsShape(b: nat, c: Consent, s: Selection)
    ensures |GroupRecords(b, c, s)| == Size(s)
    ensures forall k :: 0 <= k < |s.needs| ==> GroupRecords(b, c, s)[k] == DataGrantFor(c, s.needs[k])
    ensures Yields(s) <==> exists k :: 0 <= k < |GroupRecords(b, c, s)| && GroupRecords(b, c, s)[k].AccessGrant?
    ensures Yields(s) ==>
      GroupRecords(b, c, s)[|s.needs|] == AccessGrant(c.emitter, c.now, c.app, s.group, Minted(b, |s.needs|), s.rights)
  {
    var recs := GroupRecords(b, c, s);
    forall k | 0 <= k < |s.needs|
      ensures recs[k] == DataGrantFor(c, s.needs[k])
    {
      GroupDataGrantAt(b, c, s, k);
    }
    if Yields(s) {
      assert recs[|s.needs|].AccessGrant?;
    } else {
      assert |recs| == 0;
    }
  }

  lemma GroupSize(b: nat, c: Consent, s: Selection)
    ensures |GroupRecords(b, c, s)| == Size(s)
  {
  }

  lemma GroupDataGrantAt(b: nat, c: Consent, s: Selection, k: nat)
    requires k < |s.needs|
    ensures GroupRecords(b, c, s)[k] == DataGrantFor(c, s.needs[k])
  {
    DataGrantsAt(c, s.needs, k);
  }

  lemma GroupAccessGrantAt(b: nat, c: Consent, s: Selection)
    requires Yields(s)
    ensures GroupRecords(b, c, s)[|s.needs|] == AccessGrant(c.emitter, c.now, c.app, s.group, Minted(b, |s.needs|), s.rights)
  {
  }

  /** One step of the group recursion, for the Grants and the AccessGrantIds alike. */
  lemma GrantsUnfold(base: nat, c: Consent, sels: seq<Selection>, all: seq<Record>, ids: seq<Uri>,
                     s: Selection, b2: nat, rest: seq<Record>, rids: seq<Uri>)
    requires |sels| > 0 && all == Grants(base, c, sels) && ids == AccessGrantIds(base, sels)
    requires s == sels[0] && b2 == base + Size(s)
    requires rest == Grants(b2, c, sels[1..]) && rids == AccessGrantIds(b2, sels[1..])
    ensures all == GroupRecords(base, c, s) + rest && ids == GroupAccessGrant(base, s) + rids
    ensures |GroupRecords(base, c, s)| == Size(s)
  {
  }

  /** `u` names an AccessGrant among `all`, the records posted from log position `base` on. */
  predicate NamesAccessGrant(all: seq<Record>, base: nat, u: Uri)
  {
    u.Local? && base <= u.n < base + |all| && all[u.n - base].AccessGrant?
  }

  /** Every URI collected for hasAccessGrant names an AccessGrant record posted by the Install. */
  lemma {:induction false} AccessGrantIdsPointToGrants(base: nat, c: Consent, sels: seq<Selection>,
                                                       all: seq<Record>, ids: seq<Uri>, i: nat)
    requires all == Grants(base, c, sels) && ids == AccessGrantIds(base, sels)
    requires i < |ids|
    ensures NamesAccessGrant(all, base, ids[i])
    decreases |sels|
  {
    var s := sels[0];
    var b2 := base + Size(s);
    var rest := Grants(b2, c, sels[1..]);
    var rids := AccessGrantIds(b2, sels[1..]);
    GrantsUnfold(base, c, sels, all, ids, s, b2, rest, rids);
    if i < |GroupAccessGrant(base, s)| {
      OwnAccessGrant(all, ids, base, c, s, rest, rids, i);
    } else {
      AccessGrantIdsPointToGrants(b2, c, sels[1..], rest, rids, i - |GroupAccessGrant(base, s)|);
      LaterAccessGrant(all, ids, GroupRecords(base, c, s), rest, GroupAccessGrant(base, s), rids, base, b2, i);
    }
  }

  lemma OwnAccessGrant(all: seq<Record>, ids: seq<Uri>, base: nat, c: Consent, s: Selection,
                       rest: seq<Record>, rids: seq<Uri>, i: nat)
    requires all == GroupRecords(base, c, s) + rest && ids == GroupAccessGrant(base, s) + rids
    requires i < |GroupAccessGrant(base, s)|
    ensures NamesAccessGrant(all, base, ids[i])
  {
    GroupSize(base, c, s);
    GroupAccessGrantAt(base, c, s);
    ConcatAt(GroupRecords(base, c, s), rest, |s.needs|);
    ConcatAt(GroupAccessGrant(base, s), rids, i);
  }

  lemma LaterAccessGrant(all: seq<Record>, ids: seq<Uri>, grp: seq<Record>, rest: seq<Record>,
                         gids: seq<Uri>, rids: seq<Uri>, base: nat, b2: nat, i: nat)
    requires all == grp + rest && ids == gids + rids && b2 == base + |grp|
    requires |gids| <= i < |ids| && NamesAccessGrant(rest, b2, rids[i - |gids|])
    ensures NamesAccessGrant(all, base, ids[i])
  {
    ConcatAt(gids, rids, i);
    ConcatAt(grp, rest, ids[i].n - base);
  }

  /** Record `p` of `all` is an AccessGrant, listed at position `j` of `ids`, that is
      record `q` or lists record `q`, a DataGrant (records counted from log position `base`). */
  predicate CoveredBy(all: seq<Record>, ids: seq<Uri>, base: nat, q: nat, p: nat, j: nat)
  {
    p < |all| && q < |all| && all[p].AccessGrant? && j < |ids| && ids[j] == Local(base + p) &&
    (p == q || (all[q].DataGrant? && Local(base + q) in all[p].hasDataGrant))
  }

  /** Every record the group loop posts is an AccessGrant that is collected
      for hasAccessGrant, or a DataGrant listed by such an AccessGrant. */
  lemma {:induction false} CoveringGrant(base: nat, c: Consent, sels: seq<Selection>, all: seq<Record>, ids: seq<Uri>, q: nat)
    returns (p: nat, j: nat)
    requires all == Grants(base, c, sels) && ids == AccessGrantIds(base, sels)
    requires q < |all|
    ensures CoveredBy(all, ids, base, q, p, j)
    decreases |sels|
  {
    var s := sels[0];
    var b2 := base + Size(s);
    var rest := Grants(b2, c, sels[1..]);
    var rids := AccessGrantIds(b2, sels[1..]);
    GrantsUnfold(base, c, sels, all, ids, s, b2, rest, rids);
    if q < Size(s) {
      p, j := CoverHead(all, ids, base, c, s, rest, rids, q);
    } else {
      var p', j' := CoveringGrant(b2, c, sels[1..], rest, rids, q - Size(s));
      p, j := CoverTail(all, ids, GroupRecords(base, c, s), rest, GroupAccessGrant(base, s), rids, base, b2, q, p', j');
    }
  }

  lemma CoverHead(all: seq<Record>, ids: seq<Uri>, base: nat, c: Consent, s: Selection,
                  rest: seq<Record>, rids: seq<Uri>, q: nat) returns (p: nat, j: nat)
    requires all == GroupRecords(base, c, s) + rest && ids == GroupAccessGrant(base, s) + rids
    requires q < Size(s)
    ensures CoveredBy(all, ids, base, q, p, j)
  {
    p, j := |s.needs|, 0;
    GroupSize(base, c, s);
    GroupAccessGrantAt(base, c, s);
    ConcatAt(GroupRecords(base, c, s), rest, p);
    ConcatAt(GroupAccessGrant(base, s), rids, j);
    if q < |s.needs| {
      MintedAt(base, |s.needs|, q);
      GroupDataGrantAt(base, c, s, q);
      ConcatAt(GroupRecords(base, c, s), rest, q);
    }
  }

  lemma CoverTail(all: seq<Record>, ids: seq<Uri>, grp: seq<Record>, rest: seq<Record>, gids: seq<Uri>, rids: seq<Uri>,
                  base: nat, b2: nat, q: nat, p': nat, j': nat) returns (p: nat, j: nat)
    requires all == grp + rest && ids == gids + rids && b2 == base + |grp| && |grp| <= q
    requires CoveredBy(rest, rids, b2, q - |grp|, p', j')
    ensures CoveredBy(all, ids, base, q, p, j)
  {
    p, j := |grp| + p', |gids| + j';
    ConcatAt(grp, rest, p);
    ConcatAt(grp, rest, q);
    ConcatAt(gids, rids, j);
  }

  /** Conversely, every AccessGrant the group loop posts is collected for
      hasAccessGrant. */
  lemma {:induction false} PostedAccessGrantsCollected(base: nat, c: Consent, sels: seq<Selection>, k: nat)
    requires k < |Grants(base, c, sels)| && Grants(base, c, sels)[k].AccessGrant?
    ensures Local(base + k) in AccessGrantIds(base, sels)
    decreases |sels|
  {
    var s := sels[0];
    var b2 := base + Size(s);
    var rest := Grants(b2, c, sels[1..]);
    var rids := AccessGrantIds(b2, sels[1..]);
    GrantsUnfold(base, c, sels, Grants(base, c, sels), AccessGrantIds(base, sels), s, b2, rest, rids);
    ConcatAt(GroupRecords(base, c, s), rest, k);
    if k < |s.needs| {
      GroupDataGrantAt(base, c, s, k);
      assert false;
    } else if k < Size(s) {
      assert GroupAccessGrant(base, s) == [Local(base + k)];
    } else {
      PostedAccessGrantsCollected(b2, c, sels[1..], k - Size(s));
    }
  }

  /** The cascade of a registration appended after `recs` reaches an AccessGrant
      it lists and every DataGrant that AccessGrant lists. */
  lemma CascadeReaches(oldLog: seq<Record>, recs: seq<Record>, reg: Record, p: nat, q: nat, j: nat)
    requires reg.Registration? && CoveredBy(recs, reg.hasAccessGrant, |oldLog|, q, p, j)
    ensures Local(|oldLog| + q) in Cascade(oldLog + recs + [reg], Local(|oldLog| + |recs|))
  {
    var log := oldLog + recs + [reg];
    var r := Local(|oldLog| + |recs|);
    var g := Local(|oldLog| + p);
    assert log[r.n] == reg;
    assert log[g.n] == recs[p];
    if p != q {
      assert Local(|oldLog| + q) in (set g, d | g in reg.hasAccessGrant && g.Local? && g.n < |log| && log[g.n].AccessGrant?
                                                && d in log[g.n].hasDataGrant :: d);
    }
  }

  /** The cascade of any registration in the log removes the registration itself. */
  lemma CascadeRemovesRegistration(log: seq<Record>, reg: Uri)
    requires reg.Local? && reg.n < |log| && log[reg.n].Registration?
    ensures reg in Cascade(log, reg)
  {
  }

  /** Hence rejecting the registration of a successful Install removes every
      record that the Install posted: no DataGrant or AccessGrant is orphaned. */
  lemma InstallThenCascade(oldLog: seq<Record>, c: Consent, sels: seq<Selection>, preferred: seq<Uri>,
                           recs: seq<Record>, ids: seq<Uri>, q: nat)
    requires recs == Grants(|oldLog|, c, sels) && ids == AccessGrantIds(|oldLog|, sels)
    requires q < |recs|
    ensures Local(|oldLog| + q) in Cascade(oldLog + recs + [Registration(c.emitter, c.now, c.now, c.app, ids, preferred)],
                                           Local(|oldLog| + |recs|))
  {
    var p, j := CoveringGrant(|oldLog|, c, sels, recs, ids, q);
    CascadeReaches(oldLog, recs, Registration(c.emitter, c.now, c.now, c.app, ids, preferred), p, q, j);
  }

  /** Locale selection: a set in the user's locale wins (the last one); else
      the last English set; and only when neither exists is there no choice. */
  lemma ChosenMeaning(sets: seq<DescriptionSet>, locale: Option<string>)
    ensures Chosen(sets, locale).None? <==>
      forall j :: 0 <= j < |sets| ==> sets[j].language != locale && sets[j].language != Some(EN)
    ensures forall i :: (0 <= i < |sets| && sets[i].language == locale &&
                         (forall j :: i < j < |sets| ==> sets[j].language != locale)) ==>
      Chosen(sets, locale) == Some(sets[i].classDescriptions)
    ensures forall i :: (0 <= i < |sets| && sets[i].language == Some(EN) &&
                         (forall j :: 0 <= j < |sets| ==> sets[j].language != locale) &&
                         (forall j :: i < j < |sets| ==> sets[j].language != Some(EN))) ==>
      Chosen(sets, locale) == Some(sets[i].classDescriptions)
  {
  }

  /** A class is marked preferred exactly when it is described and unclaimed. */
  lemma {:induction false} UnclaimedMembers(log: seq<Record>, removed: set<Uri>, cds: seq<ClassDescription>, k: nat, cls: Uri)
    requires k <= |cds|
    ensures cls in UnclaimedUpTo(log, removed, cds, k) <==>
      !Claimed(log, removed, cls) && exists i :: 0 <= i < k && cds[i].describedClass == cls
  {
    if k > 0 {
      UnclaimedMembers(log, removed, cds, k - 1, cls);
    }
  }

  /** Posting grants (records that are not registrations) changes no claim. */
  lemma ClaimedIgnoresGrants(log: seq<Record>, removed: set<Uri>, extra: seq<Record>, cls: Uri)
    requires forall k :: 0 <= k < |extra| ==> !extra[k].Registration?
    ensures Claimed(log + extra, removed, cls) == Claimed(log, removed, cls)
  {
    forall k | |log| <= k < |log + extra| ensures !(log + extra)[k].Registration? {
      assert (log + extra)[k] == extra[k - |log|];
    }
    if Claimed(log + extra, removed, cls) {
      var k :| 0 <= k < |log + extra| && Local(k) !in removed && (log + extra)[k].Registration?
        && cls in (log + extra)[k].preferredForClass;
      assert (log + extra)[k] == log[k];
    }
    if Claimed(log, removed, cls) {
      var k :| 0 <= k < |log| && Local(k) !in removed && log[k].Registration? && cls in log[k].preferredForClass;
      assert (log + extra)[k] == log[k];
    }
  }

  lemma {:induction false} UnclaimedIgnoresGrants(log: seq<Record>, removed: set<Uri>, extra: seq<Record>,
                                                  cds: seq<ClassDescription>, k: nat)
    requires k <= |cds|
    requires forall k :: 0 <= k < |extra| ==> !extra[k].Registration?
    ensures UnclaimedUpTo(log + extra, removed, cds, k) == UnclaimedUpTo(log, removed, cds, k)
  {
    if k > 0 {
      UnclaimedIgnoresGrants(log, removed, extra, cds, k - 1);
      ClaimedIgnoresGrants(log, removed, extra, cds[k - 1].describedClass);
    }
  }

  /** The group loop posts DataGrants and AccessGrants only. */
  lemma {:induction false} GrantsNoRegistration(base: nat, c: Consent, sels: seq<Selection>, all: seq<Record>, k: nat)
    requires all == Grants(base, c, sels)
    requires k < |all|
    ensures !all[k].Registration?
    decreases |sels|
  {
    var s := sels[0];
    var b2 := base + Size(s);
    var rest := Grants(b2, c, sels[1..]);
    var rids := AccessGrantIds(b2, sels[1..]);
    GrantsUnfold(base, c, sels, all, AccessGrantIds(base, sels), s, b2, rest, rids);
    var grp := GroupRecords(base, c, s);
    ConcatAt(grp, rest, k);
    if k < |grp| {
      if k < |s.needs| {
        GroupDataGrantAt(base, c, s, k);
      } else {
        GroupAccessGrantAt(base, c, s);
      }
    } else {
      GrantsNoRegistration(b2, c, sels[1..], rest, k - |grp|);
    }
  }

  /** The selections from group `i` on start with group `i`'s. */
  lemma SelectionsAt(c: Consent, groups: seq<NeedGroup>, i: nat)
    requires i < |groups|
    ensures Selections(c, groups[i..]) == [Select(c, groups[i])] + Selections(c, groups[i + 1..])
  {
    assert groups[i..][0] == groups[i] && groups[i..][1..] == groups[i + 1..];
  }

  /** One step of the group loop, for the posted records. */
  lemma GrantsStep(before: seq<Record>, b: nat, c: Consent, s: Selection, later: seq<Selection>,
                   log: seq<Record>, total: seq<Record>, next: nat)
    requires total == before + Grants(b, c, [s] + later)
    requires log == before + GroupRecords(b, c, s)
    requires next == b + Size(s)
    ensures total == log + Grants(next, c, later)
  {
    assert ([s] + later)[0] == s && ([s] + later)[1..] == later;
    AppendAssoc(before, GroupRecords(b, c, s), Grants(b + Size(s), c, later));
  }

  /** One step of the group loop, for the collected AccessGrant URIs. */
  lemma IdsStep(before: seq<Uri>, b: nat, s: Selection, later: seq<Selection>, ids: seq<Uri>, total: seq<Uri>,
                next: nat)
    requires total == before + AccessGrantIds(b, [s] + later)
    requires ids == before + GroupAccessGrant(b, s)
    requires next == b + Size(s)
    ensures total == ids + AccessGrantIds(next, later)
  {
    assert ([s] + later)[0] == s && ([s] + later)[1..] == later;
    AppendAssoc(before, GroupAccessGrant(b, s), AccessGrantIds(b + Size(s), later));
  }

  // ---------------------------------------------------------------------
  // The pod and its handlers

  class Pod {
    var log: seq<Record>
    var removed: set<Uri>
    var outbox: seq<Posted>
    /** Class descriptions stored locally (ldp.remote.store) and attached to their container. */
    var cached: seq<Uri>

    constructor ()
      ensures log == [] && removed == {} && outbox == [] && cached == []
    {
      log, removed, outbox, cached := [], {}, [], [];
    }

    /** The store's `post`: append a record and return its new URI. */
    method Post(r: Record) returns (id: Uri)
      modifies this
      ensures log == old(log) + [r] && id == Local(|old(log)|)
      ensures removed == old(removed) && outbox == old(outbox) && cached == old(cached)
    {
      id := Local(|log|);
      log := log + [r];
    }

    /** The special-rights loop of install.onEmit: keep the accepted ones, in declaration order. */
    static method FilterRights(g: NeedGroup, accepted: Listing) returns (kept: seq<Uri>)
      ensures kept == GrantedRights(g, accepted)
    {
      kept := [];
      if Given(accepted) {
        var j := 0;
        while j < |g.specialRights|
          invariant 0 <= j <= |g.specialRights|
          invariant kept == RightsUpTo(g.specialRights, accepted, j)
        {
          if Includes(accepted, g.specialRights[j]) {
            kept := kept + [g.specialRights[j]];
          }
          j := j + 1;
        }
      } else {
        NothingAcceptedNothingGranted(g, accepted);
      }
    }

    /** The need loop of install.onEmit: post one DataGrant per accepted need. */
    method PostDataGrants(c: Consent, g: NeedGroup) returns (dataGrants: seq<Uri>)
      modifies this
      ensures log == old(log) + DataGrantsFor(c, GrantedNeeds(g, c.acceptedNeeds))
      ensures dataGrants == Minted(|old(log)|, |GrantedNeeds(g, c.acceptedNeeds)|)
      ensures removed == old(removed) && outbox == old(outbox) && cached == old(cached)
    {
      var base := |log|;
      dataGrants := [];
      if Given(c.acceptedNeeds) {
        ghost var done: seq<NeedRef> := [];
        var j := 0;
        while j < |g.needs|
          invariant 0 <= j <= |g.needs|
          invariant done == NeedsUpTo(g.needs, c.acceptedNeeds, j)
          invariant log == old(log) + DataGrantsFor(c, done)
          invariant dataGrants == Minted(base, |done|)
          invariant removed == old(removed) && outbox == old(outbox) && cached == old(cached)
        {
          var n := g.needs[j];
          NeedStep(g.needs, c.acceptedNeeds, j);
          if Includes(c.acceptedNeeds, n.uri) {
            var id := Post(DataGrantFor(c, n));
            DataGrantsAppend(c, done, n);
            MintedNext(base, |done|);
            dataGrants := dataGrants + [id];
            done := done + [n];
          }
          j := j + 1;
        }
      } else {
        NothingAcceptedNothingGranted(g, c.acceptedNeeds);
        assert Minted(base, 0) == [];
      }
    }

    /** One iteration of the group loop of install.onEmit: post the DataGrants
        of the accepted needs, then an AccessGrant if anything was granted. */
    method PostGroupGrants(c: Consent, g: NeedGroup) returns (grant: seq<Uri>)
      modifies this
      ensures log == old(log) + GroupRecords(|old(log)|, c, Select(c, g))
      ensures grant == GroupAccessGrant(|old(log)|, Select(c, g))
      ensures removed == old(removed) && outbox == old(outbox) && cached == old(cached)
    {
      var dataGrants := PostDataGrants(c, g);
      var rights := FilterRights(g, c.acceptedRights);
      ghost var needs := GrantedNeeds(g, c.acceptedNeeds);
      if |dataGrants| > 0 || |rights| > 0 {
        var id := Post(AccessGrant(c.emitter, c.now, c.app, g.uri, dataGrants, rights));
        AppendAssoc(old(log), DataGrantsFor(c, needs), [AccessGrant(c.emitter, c.now, c.app, g.uri, dataGrants, rights)]);
        grant := [id];
      } else {
        assert DataGrantsFor(c, needs) + [] == DataGrantsFor(c, needs);
        grant := [];
      }
    }

    /** The group loop of install.onEmit, over every AccessNeedGroup in order. */
    method PostAllGrants(c: Consent, groups: seq<NeedGroup>) returns (accessGrants: seq<Uri>)
      modifies this
      ensures log == old(log) + Grants(|old(log)|, c, Selections(c, groups))
      ensures accessGrants == AccessGrantIds(|old(log)|, Selections(c, groups))
      ensures removed == old(removed) && outbox == old(outbox) && cached == old(cached)
    {
      var base := |log|;
      ghost var sels := Selections(c, groups);
      ghost var total := old(log) + Grants(base, c, sels);
      ghost var ids := AccessGrantIds(base, sels);
      accessGrants := [];
      var i := 0;
      while i < |groups|
        invariant 0 <= i <= |groups|
        invariant total == log + Grants(|log|, c, Selections(c, groups[i..]))
        invariant ids == accessGrants + AccessGrantIds(|log|, Selections(c, groups[i..]))
        invariant removed == old(removed) && outbox == old(outbox) && cached == old(cached)
      {
        ghost var before := log;
        ghost var beforeIds := accessGrants;
        ghost var b := |log|;
        ghost var s := Select(c, groups[i]);
        ghost var later := Selections(c, groups[i + 1..]);
        SelectionsAt(c, groups, i);
        GroupSize(b, c, s);
        var grant := PostGroupGrants(c, groups[i]);
        assert |log| == b + Size(s);
        GrantsStep(before, b, c, s, later, log, total, |log|);
        IdsStep(beforeIds, b, s, later, beforeIds + grant, ids, |log|);
        accessGrants := accessGrants + grant;
        i := i + 1;
      }
      assert groups[i..] == [];
      assert Grants(|log|, c, []) == [] && AccessGrantIds(|log|, []) == [];
      assert log + [] == log && accessGrants + [] == accessGrants;
    }

    /** The locale loop of install.onEmit: remember the last set in the
        user's locale and the last other English set, preferring the first. */
    static method ChooseDescriptions(sets: seq<DescriptionSet>, locale: Option<string>)
      returns (chosen: Option<seq<ClassDescription>>)
      ensures chosen == Chosen(sets, locale)
    {
      var localized: Option<seq<ClassDescription>> := None;
      var fallback: Option<seq<ClassDescription>> := None;
      var i := 0;
      while i < |sets|
        invariant 0 <= i <= |sets|
        invariant localized == ChoiceAt(sets, LastInLanguage(sets, locale, i))
        invariant LastInLanguage(sets, locale, i).None? ==>
          fallback == ChoiceAt(sets, LastInLanguage(sets, Some(EN), i))
      {
        if sets[i].language == locale {
          localized := Some(sets[i].classDescriptions);
        } else if sets[i].language == Some(EN) {
          fallback := Some(sets[i].classDescriptions);
        }
        i := i + 1;
      }
      if localized.None? {
        localized := fallback;
      }
      chosen := localized;
    }

    /** The class-description loop of install.onEmit: cache each description
        and collect the described classes no registration is preferred for. */
    method CacheDescriptions(cds: seq<ClassDescription>) returns (preferred: seq<Uri>)
      modifies this
      ensures preferred == Unclaimed(log, removed, cds)
      ensures cached == old(cached) + DescriptionUris(cds)
      ensures log == old(log) && removed == old(removed) && outbox == old(outbox)
    {
      preferred := [];
      var k := 0;
      while k < |cds|
        invariant 0 <= k <= |cds|
        invariant log == old(log) && removed == old(removed) && outbox == old(outbox)
        invariant cached == old(cached) + DescriptionUris(cds[..k])
        invariant preferred == UnclaimedUpTo(log, removed, cds, k)
      {
        assert DescriptionUris(cds[..k + 1]) == DescriptionUris(cds[..k]) + [cds[k].uri];
        cached := cached + [cds[k].uri];
        if !Claimed(log, removed, cds[k].describedClass) {
          preferred := preferred + [cds[k].describedClass];
        }
        k := k + 1;
      }
      assert cds[..|cds|] == cds;
    }

    /** install.onEmit. `userLocale` is the user's schema:knowsLanguage. */
    method Install(a: Node, emitter: Uri, app: AppDescriptor, userLocale: Option<string>, now: Timestamp)
      returns (outcome: Outcome)
      requires Matches(InstallPattern, a)
      modifies this
      ensures var c := Consent(emitter, IdOf(a.obj), now, a.acceptedNeeds, a.acceptedRights);
        var base := |old(log)|;
        var grants := Grants(base, c, Selections(c, app.groups));
        var chosen := if app.descriptionSets.None? then Some([]) else Chosen(app.descriptionSets.value, userLocale);
        && removed == old(removed)
        && (outcome.Failed? <==> chosen.None?)
        && (outcome.Failed? ==>
              outcome.error == NoDescriptionSet && log == old(log) + grants
              && outbox == old(outbox) && cached == old(cached))
        && (outcome.Done? ==>
              && log == old(log) + grants +
                   [Registration(emitter, now, now, c.app, AccessGrantIds(base, Selections(c, app.groups)),
                                 Unclaimed(old(log), removed, chosen.value))]
              && outbox == old(outbox) + [Posted(emitter, CREATE, Local(base + |grants|), c.app)]
              && cached == old(cached) + DescriptionUris(chosen.value))
    {
      var c := Consent(emitter, IdOf(a.obj), now, a.acceptedNeeds, a.acceptedRights);
      ghost var base := |log|;
      var accessGrants := PostAllGrants(c, app.groups);
      ghost var grants := Grants(base, c, Selections(c, app.groups));
      forall k | 0 <= k < |grants| ensures !grants[k].Registration? {
        GrantsNoRegistration(base, c, Selections(c, app.groups), grants, k);
      }
      var preferred: seq<Uri> := [];
      if app.descriptionSets.Some? {
        var chosen := ChooseDescriptions(app.descriptionSets.value, userLocale);
        if chosen.None? {
          // `for...of undefined` throws here, after the grants were posted
          return Failed(NoDescriptionSet);
        }
        UnclaimedIgnoresGrants(old(log), removed, grants, chosen.value, |chosen.value|);
        preferred := CacheDescriptions(chosen.value);
      } else {
        assert DescriptionUris([]) == [];
      }
      var registration := Post(Registration(emitter, now, now, c.app, accessGrants, preferred));
      outbox := outbox + [Posted(emitter, CREATE, registration, c.app)];
      outcome := Done;
    }

    /** rejectAppRegistration.onReceive: the app cancels the registration. */
    method RejectAppRegistration(a: Node, recipient: Uri) returns (outcome: Outcome)
      requires Matches(RejectAppRegistrationPattern, a)
      modifies this
      ensures log == old(log) && outbox == old(outbox) && cached == old(cached)
      ensures var reg := a.obj.obj.id;
        outcome.Done? <==>
          Live(log, old(removed), reg) && log[reg.n].Registration?
          && log[reg.n].registeredBy == recipient && log[reg.n].registeredAgent == a.actor
      ensures outcome.Failed? ==> removed == old(removed)
      ensures outcome.Done? ==> removed == old(removed) + Cascade(log, a.obj.obj.id)
      ensures outcome.Done? ==> !Live(log, removed, a.obj.obj.id)
    {
      var reg := a.obj.obj.id;
      if !(Live(log, removed, reg) && log[reg.n].Registration?) {
        return Failed(RegistrationNotFound);
      }
      var registration := log[reg.n];
      if registration.registeredBy != recipient {
        return Failed(NotOwner);
      }
      if registration.registeredAgent != a.actor {
        return Failed(NotForActor);
      }
      CascadeRemovesRegistration(log, reg);
      removed := removed + Cascade(log, reg);
      outcome := Done;
    }

    /** uninstall.onEmit: post a Delete of the app's registration, if there is one. */
    method Uninstall(a: Node, emitter: Uri)
      requires Matches(UninstallPattern, a)
      modifies this
      ensures log == old(log) && removed == old(removed) && cached == old(cached)
      ensures var app := IdOf(a.obj.obj);
        match RegistrationForApp(log, removed, app, 0)
        case None => outbox == old(outbox)
        case Some(reg) => outbox == old(outbox) + [Posted(emitter, DELETE, reg, app)]
    {
      var app := IdOf(a.obj.obj);
      var registration := RegistrationForApp(log, removed, app, 0);
      if registration.Some? {
        outbox := outbox + [Posted(emitter, DELETE, registration.value, app)];
      }
    }
  }
}
