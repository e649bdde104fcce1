/**
 * Vocabulary shared by the installation, announce and access-need protocols:
 * URIs, the activity tree that arrives on the wire, and the match patterns
 * with which the activity dispatcher selects a handler.
 *
 * The matcher itself (matchActivity / ActivitiesHandlerMixin) is a library
 * collaborator. It is modelled under the assumption that a pattern matches
 * when every field it declares (the type, and recursively the type of the
 * nested object) equals the activity's field; undeclared fields are wildcards.
 */
module Activities {

  datatype Option<+T> = None | Some(value: T)

  /** A resource identifier. `Local(n)` is the n-th record minted by a store's
      `post`; `Ext` is every identifier coming from elsewhere (actors, apps,
      remote descriptors, vocabulary terms). */
  datatype Uri = Ext(name: string) | Local(n: nat)

  /** The URIs of `k` records posted from log position `base` on. */
  function Minted(base: nat, k: nat): (r: seq<Uri>)
    ensures |r| == k
  {
    if k == 0 then [] else Minted(base, k - 1) + [Local(base + k - 1)]
  }

  /** Posting one more record mints the next URI. */
  lemma MintedNext(base: nat, k: nat)
    ensures Minted(base, k + 1) == Minted(base, k) + [Local(base + k)]
  {
  }

  /** The i-th minted URI is that of log position `base + i`. */
  lemma {:induction false} MintedAt(base: nat, k: nat, i: nat)
    requires i < k
    ensures Minted(base, k)[i] == Local(base + i)
  {
    if i < k - 1 {
      MintedAt(base, k - 1, i);
    }
  }

  /** Indexing into a concatenation. */
  lemma ConcatAt<T>(a: seq<T>, b: seq<T>, i: nat)
    requires i < |a| + |b|
    ensures i < |a| ==> (a + b)[i] == a[i]
    ensures |a| <= i ==> (a + b)[i] == b[i - |a|]
  {
  }

  lemma AppendAssoc<T>(a: seq<T>, b: seq<T>, c: seq<T>)
    ensures (a + b) + c == a + (b + c)
  {
  }

  /** A JSON-LD field that may be absent, a single value or an array. */
  datatype Multi = Absent | One(item: Uri) | Many(items: seq<Uri>)

  /** `defaultToArray` / `arrayOf`: absent gives [], a single value gives [it]. */
  function ToSeq(m: Multi): (r: seq<Uri>)
    ensures m.Absent? ==> r == []
    ensures m.One? ==> r == [m.item]
    ensures m.Many? ==> r == m.items
  {
    match m
    case Absent => []
    case One(u) => [u]
    case Many(s) => s
  }

  /** A field the handlers test with `.includes`, as the activity carries it:
      absent, an array, or a single value, which arrives as a string. */
  datatype Listing = Unlisted | Listed(items: seq<Uri>) | Text(text: string)

  /** The field is truthy: any array, even an empty one, but not an empty string. */
  predicate Given(l: Listing)
  {
    l.Listed? || (l.Text? && |l.text| > 0)
  }

  /** `t` occurs in `s`. */
  predicate Substring(t: string, s: string)
    decreases |s|
  {
    t <= s || (|s| > 0 && Substring(t, s[1..]))
  }

  /** `value.includes(u)`: membership in an array, a substring test on a
      string. A pod-local URI has no string form here and occurs in no string. */
  predicate Includes(l: Listing, u: Uri)
  {
    match l
    case Unlisted => false
    case Listed(xs) => u in xs
    case Text(s) => u.Ext? && Substring(u.name, s)
  }

  /** An activity or an object nested in one: either a bare reference or an
      inline object with the fields the core reads. */
  datatype Node =
    | Ref(uri: Uri)
    | Obj(typ: string, id: Uri, actor: Uri, obj: Node, target: Multi, to: Multi,
          acceptedNeeds: Listing, acceptedRights: Listing)

  /** `typeof x === 'string' ? x : x.id` */
  function IdOf(n: Node): Uri
  {
    match n
    case Ref(u) => u
    case Obj(_, id, _, _, _, _, _, _) => id
  }

  const INSTALL := "apods:Install"
  const REJECT := "Reject"
  const CREATE := "Create"
  const UNDO := "Undo"
  const DELETE := "Delete"
  const ANNOUNCE := "Announce"
  const OFFER := "Offer"
  const APP_REGISTRATION := "interop:ApplicationRegistration"

  /** A match pattern: a required type and, optionally, a pattern for the object. */
  datatype Pattern = Pattern(typ: string, inner: Option<Pattern>)

  predicate Matches(p: Pattern, n: Node)
    decreases p
  {
    n.Obj? && n.typ == p.typ &&
    match p.inner
    case None => true
    case Some(q) => Matches(q, n.obj)
  }

  const InstallPattern := Pattern(INSTALL, None)
  const RejectAppRegistrationPattern :=
    Pattern(REJECT, Some(Pattern(CREATE, Some(Pattern(APP_REGISTRATION, None)))))
  const UninstallPattern := Pattern(UNDO, Some(Pattern(INSTALL, None)))
  const AnnouncePattern := Pattern(ANNOUNCE, None)
  const OfferAnnouncePattern := Pattern(OFFER, Some(Pattern(ANNOUNCE, None)))

  /** The handlers the installation service registers, in declaration order. */
  const InstallationRules := [InstallPattern, RejectAppRegistrationPattern, UninstallPattern]

  /** The handlers the announcer service registers, in declaration order. */
  const AnnouncerRules := [AnnouncePattern, OfferAnnouncePattern]

  /** The dispatcher: the index of the first rule, from `from` on, whose pattern matches. */
  function FirstMatch(rules: seq<Pattern>, n: Node, from: nat): (r: Option<nat>)
    requires from <= |rules|
    ensures r.Some? ==> from <= r.value < |rules| && Matches(rules[r.value], n)
    ensures r.Some? ==> forall j :: from <= j < r.value ==> !Matches(rules[j], n)
    ensures r.None? ==> forall j :: from <= j < |rules| ==> !Matches(rules[j], n)
    decreases |rules| - from
  {
    if from == |rules| then None
    else if Matches(rules[from], n) then Some(from)
    else FirstMatch(rules, n, from + 1)
  }

  /** No activity is matched by two different rules of the table. */
  ghost predicate Exclusive(rules: seq<Pattern>)
  {
    forall i, j, n :: 0 <= i < j < |rules| && Matches(rules[i], n) ==> !Matches(rules[j], n)
  }

  /** A matched activity carries the pattern's top-level type. */
  lemma MatchedType(p: Pattern, n: Node)
    requires Matches(p, n)
    ensures n.Obj? && n.typ == p.typ
  {
  }

  /** Rules whose top-level types are pairwise distinct are mutually exclusive. */
  lemma DistinctTypesExclusive(rules: seq<Pattern>)
    requires forall i, j :: 0 <= i < j < |rules| ==> rules[i].typ != rules[j].typ
    ensures Exclusive(rules)
  {
    forall i, j, n | 0 <= i < j < |rules| && Matches(rules[i], n)
      ensures !Matches(rules[j], n)
    {
      MatchedType(rules[i], n);
      if Matches(rules[j], n) {
        MatchedType(rules[j], n);
      }
    }
  }

  /** At most one installation handler matches a given activity, and the
      dispatcher picks exactly the one that does. */
  lemma InstallationRulesExclusive(n: Node)
    ensures Exclusive(InstallationRules)
    ensures forall i :: 0 <= i < |InstallationRules| && Matches(InstallationRules[i], n) ==>
      FirstMatch(InstallationRules, n, 0) == Some(i)
  {
    DistinctTypesExclusive(InstallationRules);
  }

  /** Likewise for the two announcer handlers: a plain Announce never reaches the
      Offer-to-Announce handler, and an Offer never reaches the Announce one. */
  lemma AnnouncerRulesExclusive(n: Node)
    ensures Exclusive(AnnouncerRules)
    ensures forall i :: 0 <= i < |AnnouncerRules| && Matches(AnnouncerRules[i], n) ==>
      FirstMatch(AnnouncerRules, n, 0) == Some(i)
  {
    DistinctTypesExclusive(AnnouncerRules);
  }
}
