/**
 * The announce protocol: a creator shares a resource with chosen actors by
 * an Announce, and may delegate the right to announce it further by an Offer
 * of an Announce.
 *
 * Each shared resource carries two collections, created on demand and
 * attached to it: `apods:announces` (who received the resource) and
 * `apods:announcers` (who may ask the creator to announce it). Each is
 * mirrored by a WebACL group, which is what grants read rights.
 *
 * The collaborators are modelled as state:
 * - `createAndAttachCollection` creates the collection when it is missing and
 *   keeps it (with its members) otherwise; collection URIs are derived from
 *   the object, one per kind;
 * - `getAnnouncesGroupUri` / `getAnnouncersGroupUri` are not part of this
 *   model; they are assumed to give one group per object and kind;
 * - `webacl.group.create` fails when the group already exists, and
 *   `webacl.resource.addRights` fails when it is given no resource;
 * - resources, actors and the container registry are read-only maps;
 *   whether a resource is remote and whether storing it locally succeeds
 *   are parameters.
 */
module Announcer {
  import opened Activities

  /** The collection of the given kind attached to an object. */
  datatype Collection = Announces(obj: Uri) | Announcers(obj: Uri)

  /** The WebACL group mirroring a collection. */
  datatype Group = AnnouncesGroup(obj: Uri) | AnnouncersGroup(obj: Uri)

  /** Something a read right can be given on. */
  datatype Target = Doc(uri: Uri) | Coll(c: Collection)

  datatype Right = Read(target: Target, group: Group)

  /** A resource as `ldp.resource.get` returns it: its `dc:creator` and its type. */
  datatype Resource = Resource(creator: Uri, typ: string)

  /** An actor as `activitypub.actor.get` returns it; `url` is its profile, when it has one. */
  datatype Actor = Actor(url: Option<Uri>)

  /** An activity posted to an outbox. */
  datatype Sent = Sent(actor: Uri, typ: string, obj: Uri, target: Multi, to: Multi)

  datatype Error = NotFound | NotAttached | ActorNotFound | NotCreator | GroupExists | NotAnnouncer | AddFailed

  datatype Outcome = Done | Failed(error: Error)

  /** The collection a group mirrors. */
  function Home(g: Group): (c: Collection)
    ensures c.obj == g.obj
    ensures g.AnnouncesGroup? <==> c.Announces?
  {
    match g
    case AnnouncesGroup(o) => Announces(o)
    case AnnouncersGroup(o) => Announcers(o)
  }

  /** The actors listed in a sequence of targets. */
  function Members(ts: seq<Uri>): (r: set<Uri>)
    ensures forall x :: x in r <==> x in ts
  {
    set x | x in ts
  }

  lemma MembersStep(ts: seq<Uri>, i: nat)
    requires i < |ts|
    ensures Members(ts[..i + 1]) == Members(ts[..i]) + {ts[i]}
  {
    assert ts[..i + 1] == ts[..i] + [ts[i]];
  }

  lemma UpdateSame<K, V>(m: map<K, V>, k: K, a: V)
    requires k in m && a == m[k]
    ensures m[k := a] == m
  {
  }

  lemma UpdateTwice<K, V>(m: map<K, V>, k: K, a: V, b: V)
    ensures m[k := a][k := b] == m[k := b]
  {
  }

  /** Every group belongs to a collection that exists, and holds only items of it:
      the collections are the authority, the groups their mirror. */
  ghost predicate Mirrors(collections: map<Collection, set<Uri>>, groups: map<Group, set<Uri>>)
  {
    forall g :: g in groups ==> Home(g) in collections && groups[g] <= collections[Home(g)]
  }

  /** Adding an item to a collection keeps the mirror. */
  lemma MirrorsCollectionAdd(collections: map<Collection, set<Uri>>, groups: map<Group, set<Uri>>, c: Collection, x: Uri)
    requires Mirrors(collections, groups) && c in collections
    ensures Mirrors(collections[c := collections[c] + {x}], groups)
  {
  }

  /** Adding to a group an item its collection already holds keeps the mirror. */
  lemma MirrorsMemberAdd(collections: map<Collection, set<Uri>>, groups: map<Group, set<Uri>>, g: Group, x: Uri)
    requires Mirrors(collections, groups) && g in groups && Home(g) in collections && x in collections[Home(g)]
    ensures Mirrors(collections, groups[g := groups[g] + {x}])
  {
  }

  /** Where the target loop of a handler stops. Either every `collection.add`
      and `webacl.group.addMember` succeeds, or the call for the target at
      index `at` throws, which ends the handler with nothing rolled back. */
  datatype AddFault = NoFault | CollectionAddFails(at: nat) | MemberAddFails(at: nat)

  /** The fault hits one of the targets. */
  predicate Interrupted(fault: AddFault, ts: seq<Uri>)
  {
    !fault.NoFault? && fault.at < |ts|
  }

  /** The targets that reached the collection. */
  function CollectionPart(ts: seq<Uri>, fault: AddFault): seq<Uri>
  {
    if !Interrupted(fault, ts) then ts
    else if fault.CollectionAddFails? then ts[..fault.at]
    else ts[..fault.at + 1]
  }

  /** The targets that reached the group. */
  function GroupPart(ts: seq<Uri>, fault: AddFault): seq<Uri>
  {
    if !Interrupted(fault, ts) then ts else ts[..fault.at]
  }

  /** Without a fault every target reaches both. A failed `addMember` leaves
      exactly one target, the one it was called for, in the collection but
      not in the group; a failed `collection.add` leaves the two equal.
      Either way the group never holds a target the collection lacks. */
  lemma {:induction false} FaultParts(ts: seq<Uri>, fault: AddFault)
    ensures !Interrupted(fault, ts) ==> CollectionPart(ts, fault) == ts && GroupPart(ts, fault) == ts
    ensures Interrupted(fault, ts) && fault.CollectionAddFails? ==>
      CollectionPart(ts, fault) == GroupPart(ts, fault) == ts[..fault.at]
    ensures Interrupted(fault, ts) && fault.MemberAddFails? ==>
      CollectionPart(ts, fault) == GroupPart(ts, fault) + [ts[fault.at]] && |GroupPart(ts, fault)| == fault.at
    ensures Members(GroupPart(ts, fault)) <= Members(CollectionPart(ts, fault))
  {
    if Interrupted(fault, ts) && fault.MemberAddFails? {
      assert ts[..fault.at + 1] == ts[..fault.at] + [ts[fault.at]];
    }
  }

  class Server {
    /** The resources this server can read. */
    var resources: map<Uri, Resource>
    var actors: map<Uri, Actor>
    /** `ldp.registry.getByType`: the container storing resources of a type. */
    var registry: map<string, Uri>

    /** Each existing collection and its items. */
    var collections: map<Collection, set<Uri>>
    /** Each existing WebACL group and its members. */
    var groups: map<Group, set<Uri>>
    var rights: set<Right>
    var outbox: seq<Sent>
    /** Remote resources stored locally (`ldp.remote.store`). */
    var cache: set<Uri>
    /** The resources attached to each container. */
    var containers: map<Uri, set<Uri>>

    ghost predicate Valid()
      reads this
    {
      Mirrors(collections, groups)
    }

    constructor (resources: map<Uri, Resource>, actors: map<Uri, Actor>, registry: map<string, Uri>)
      ensures this.resources == resources && this.actors == actors && this.registry == registry
      ensures collections == map[] && groups == map[] && rights == {} && outbox == [] && cache == {} && containers == map[]
      ensures Valid()
    {
      this.resources, this.actors, this.registry := resources, actors, registry;
      collections, groups, rights, outbox, cache, containers := map[], map[], {}, [], {}, map[];
    }

    /** `createAndAttachCollection`: create the collection unless it exists. */
    method CreateAndAttach(c: Collection)
      requires Valid()
      modifies this
      ensures Valid()
      ensures collections == if c in old(collections) then old(collections) else old(collections)[c := {}]
      ensures groups == old(groups) && rights == old(rights) && outbox == old(outbox)
      ensures cache == old(cache) && containers == old(containers)
      ensures resources == old(resources) && actors == old(actors) && registry == old(registry)
    {
      if c !in collections {
        collections := collections[c := {}];
      }
    }

    /** `activitypub.collection.add`. */
    method CollectionAdd(c: Collection, x: Uri)
      requires Valid() && c in collections
      modifies this
      ensures Valid()
      ensures collections == old(collections)[c := old(collections)[c] + {x}] && groups == old(groups)
      ensures rights == old(rights) && outbox == old(outbox) && cache == old(cache) && containers == old(containers)
      ensures resources == old(resources) && actors == old(actors) && registry == old(registry)
    {
      MirrorsCollectionAdd(collections, groups, c, x);
      collections := collections[c := collections[c] + {x}];
    }

    /** `webacl.group.addMember`, for an item its collection already holds. */
    method MemberAdd(g: Group, x: Uri)
      requires Valid() && g in groups && Home(g) in collections && x in collections[Home(g)]
      modifies this
      ensures Valid()
      ensures groups == old(groups)[g := old(groups)[g] + {x}] && collections == old(collections)
      ensures rights == old(rights) && outbox == old(outbox) && cache == old(cache) && containers == old(containers)
      ensures resources == old(resources) && actors == old(actors) && registry == old(registry)
    {
      MirrorsMemberAdd(collections, groups, g, x);
      groups := groups[g := groups[g] + {x}];
    }

    /** The target loops of announce.onEmit and offerAnnounce.onEmit: add every
        target to the collection, then to the group that mirrors it, until
        `fault` makes one of the calls throw. */
    method AddAll(g: Group, ts: seq<Uri>, fault: AddFault) returns (outcome: Outcome)
      requires Valid() && g in groups && Home(g) in collections
      modifies this
      ensures Valid()
      ensures outcome == if Interrupted(fault, ts) then Failed(AddFailed) else Done
      ensures collections == old(collections)[Home(g) := old(collections)[Home(g)] + Members(CollectionPart(ts, fault))]
      ensures groups == old(groups)[g := old(groups)[g] + Members(GroupPart(ts, fault))]
      ensures rights == old(rights) && outbox == old(outbox) && cache == old(cache) && containers == old(containers)
      ensures resources == old(resources) && actors == old(actors) && registry == old(registry)
    {
      var c := Home(g);
      var i := 0;
      assert Members(ts[..0]) == {};
      assert old(collections)[c] + {} == old(collections)[c] && old(groups)[g] + {} == old(groups)[g];
      UpdateSame(old(collections), c, old(collections)[c] + {});
      UpdateSame(old(groups), g, old(groups)[g] + {});
      while i < |ts|
        invariant 0 <= i <= |ts|
        invariant Interrupted(fault, ts) ==> i <= fault.at
        invariant Mirrors(collections, groups)
        invariant collections == old(collections)[c := old(collections)[c] + Members(ts[..i])]
        invariant groups == old(groups)[g := old(groups)[g] + Members(ts[..i])]
        invariant rights == old(rights) && outbox == old(outbox) && cache == old(cache) && containers == old(containers)
        invariant resources == old(resources) && actors == old(actors) && registry == old(registry)
      {
        var x := ts[i];
        if fault == CollectionAddFails(i) {
          assert CollectionPart(ts, fault) == ts[..i] && GroupPart(ts, fault) == ts[..i];
          return Failed(AddFailed);
        }
        MembersStep(ts, i);
        assert old(collections)[c] + Members(ts[..i + 1]) == collections[c] + {x};
        UpdateTwice(old(collections), c, old(collections)[c] + Members(ts[..i]), old(collections)[c] + Members(ts[..i + 1]));
        CollectionAdd(c, x);
        if fault == MemberAddFails(i) {
          assert CollectionPart(ts, fault) == ts[..i + 1] && GroupPart(ts, fault) == ts[..i];
          return Failed(AddFailed);
        }
        assert old(groups)[g] + Members(ts[..i + 1]) == groups[g] + {x};
        UpdateTwice(old(groups), g, old(groups)[g] + Members(ts[..i]), old(groups)[g] + Members(ts[..i + 1]));
        MemberAdd(g, x);
        i := i + 1;
      }
      assert ts[..i] == ts;
      outcome := Done;
    }

    /** giveRightsAfterAnnouncesCollectionCreate: the creator joins the announces
        collection, the announces group is made to exist, and it gets read
        rights on the object and on the creator's profile when there is one. */
    method GiveRightsAfterAnnouncesCollectionCreate(o: Uri) returns (outcome: Outcome)
      requires Valid()
      modifies this
      ensures Valid()
      ensures outcome == (if o !in resources || Announces(o) !in old(collections) then Failed(NotAttached)
                          else if resources[o].creator !in actors then Failed(ActorNotFound)
                          else Done)
      ensures outcome.Failed? ==>
        collections == old(collections) && groups == old(groups) && rights == old(rights)
      ensures outcome.Done? ==>
        && collections == old(collections)[Announces(o) := old(collections)[Announces(o)] + {resources[o].creator}]
        && groups == (if AnnouncesGroup(o) in old(groups) then old(groups) else old(groups)[AnnouncesGroup(o) := {}])
        && rights == old(rights) + {Read(Doc(o), AnnouncesGroup(o))} +
             (match actors[resources[o].creator].url
              case None => {}
              case Some(u) => {Read(Doc(u), AnnouncesGroup(o))})
      ensures outbox == old(outbox) && cache == old(cache) && containers == old(containers)
      ensures resources == old(resources) && actors == old(actors) && registry == old(registry)
    {
      if o !in resources || Announces(o) !in collections {
        return Failed(NotAttached);
      }
      var creator := resources[o].creator;
      if creator !in actors {
        return Failed(ActorNotFound);
      }
      collections := collections[Announces(o) := collections[Announces(o)] + {creator}];
      if AnnouncesGroup(o) !in groups {
        groups := groups[AnnouncesGroup(o) := {}];
      }
      rights := rights + {Read(Doc(o), AnnouncesGroup(o))};
      match actors[creator].url {
        case None =>
        case Some(u) => rights := rights + {Read(Doc(u), AnnouncesGroup(o))};
      }
      outcome := Done;
    }

    /** giveRightsAfterAnnouncersCollectionCreate: the creator joins the announcers
        collection, the announcers group is created (with no check that it
        exists) and gets read rights on the announces collection. */
    method GiveRightsAfterAnnouncersCollectionCreate(o: Uri) returns (outcome: Outcome)
      requires Valid()
      modifies this
      ensures Valid()
      ensures outcome == (if o !in resources || Announcers(o) !in old(collections) then Failed(NotAttached)
                          else if AnnouncersGroup(o) in old(groups) then Failed(GroupExists)
                          else if Announces(o) !in old(collections) then Failed(NotAttached)
                          else Done)
      ensures o !in resources || Announcers(o) !in old(collections) ==>
        collections == old(collections) && groups == old(groups)
      ensures o in resources && Announcers(o) in old(collections) ==>
        collections == old(collections)[Announcers(o) := old(collections)[Announcers(o)] + {resources[o].creator}]
      ensures o in resources && Announcers(o) in old(collections) && AnnouncersGroup(o) in old(groups) ==>
        groups == old(groups)
      ensures o in resources && Announcers(o) in old(collections) && AnnouncersGroup(o) !in old(groups) ==>
        groups == old(groups)[AnnouncersGroup(o) := {}]
      ensures rights == if outcome.Done? then old(rights) + {Read(Coll(Announces(o)), AnnouncersGroup(o))} else old(rights)
      ensures outbox == old(outbox) && cache == old(cache) && containers == old(containers)
      ensures resources == old(resources) && actors == old(actors) && registry == old(registry)
    {
      if o !in resources || Announcers(o) !in collections {
        return Failed(NotAttached);
      }
      var creator := resources[o].creator;
      collections := collections[Announcers(o) := collections[Announcers(o)] + {creator}];
      if AnnouncersGroup(o) in groups {
        return Failed(GroupExists);
      }
      groups := groups[AnnouncersGroup(o) := {}];
      if Announces(o) !in collections {
        // `object['apods:announces']` is undefined: addRights has no resource
        return Failed(NotAttached);
      }
      rights := rights + {Read(Coll(Announces(o)), AnnouncersGroup(o))};
      outcome := Done;
    }

    /** announce.onEmit: only the creator of a resource may announce it; the
        targets join the announces collection and group, in order, until
        `fault` stops the target loop. */
    method AnnounceEmit(a: Node, emitter: Uri, fault: AddFault) returns (outcome: Outcome)
      requires Matches(AnnouncePattern, a) && Valid()
      modifies this
      ensures Valid()
      ensures var o := IdOf(a.obj);
        outcome == (if o !in resources then Failed(NotFound)
                    else if emitter != resources[o].creator then Failed(NotCreator)
                    else if emitter !in actors then Failed(ActorNotFound)
                    else if Interrupted(fault, ToSeq(a.target)) then Failed(AddFailed)
                    else Done)
      ensures var o := IdOf(a.obj);
        o !in resources || emitter != resources[o].creator ==>
          collections == old(collections) && groups == old(groups) && rights == old(rights)
      ensures var o := IdOf(a.obj);
        o in resources && emitter == resources[o].creator && emitter !in actors ==>
          && collections == (if Announces(o) in old(collections) then old(collections) else old(collections)[Announces(o) := {}])
          && groups == old(groups) && rights == old(rights)
      ensures var o, ts := IdOf(a.obj), ToSeq(a.target);
        o in resources && emitter == resources[o].creator && emitter in actors ==>
          && collections == old(collections)[Announces(o) :=
               (if Announces(o) in old(collections) then old(collections)[Announces(o)] else {}) + {emitter}
               + Members(CollectionPart(ts, fault))]
          && groups == old(groups)[AnnouncesGroup(o) :=
               (if AnnouncesGroup(o) in old(groups) then old(groups)[AnnouncesGroup(o)] else {})
               + Members(GroupPart(ts, fault))]
          && rights == old(rights) + {Read(Doc(o), AnnouncesGroup(o))} +
               (match actors[emitter].url
                case None => {}
                case Some(u) => {Read(Doc(u), AnnouncesGroup(o))})
      ensures outcome.Done? ==>
        CollectionPart(ToSeq(a.target), fault) == ToSeq(a.target) && GroupPart(ToSeq(a.target), fault) == ToSeq(a.target)
      ensures outbox == old(outbox) && cache == old(cache) && containers == old(containers)
      ensures resources == old(resources) && actors == old(actors) && registry == old(registry)
    {
      var o := IdOf(a.obj);
      if o !in resources {
        return Failed(NotFound);
      }
      if emitter != resources[o].creator {
        return Failed(NotCreator);
      }
      CreateAndAttach(Announces(o));
      outcome := GiveRightsAfterAnnouncesCollectionCreate(o);
      if outcome.Failed? {
        return;
      }
      var ts := ToSeq(a.target);
      ghost var given := collections[Announces(o)];
      ghost var members := groups[AnnouncesGroup(o)];
      FaultParts(ts, fault);
      outcome := AddAll(AnnouncesGroup(o), ts, fault);
      UpdateTwice(old(collections), Announces(o), given, given + Members(CollectionPart(ts, fault)));
      UpdateTwice(old(groups), AnnouncesGroup(o), members, members + Members(GroupPart(ts, fault)));
    }

    /** announce.onReceive: a remote resource is stored locally and attached to
        the container registered for its type; any failure there is only logged. */
    method AnnounceReceive(a: Node, isRemote: bool, storeSucceeds: bool) returns (outcome: Outcome)
      requires Matches(AnnouncePattern, a) && Valid()
      modifies this
      ensures Valid()
      ensures var o := IdOf(a.obj);
        outcome == if o in resources then Done else Failed(NotFound)
      ensures var o := IdOf(a.obj);
        cache == if o in resources && isRemote && storeSucceeds then old(cache) + {o} else old(cache)
      ensures var o := IdOf(a.obj);
        containers ==
          if o in resources && isRemote && storeSucceeds && resources[o].typ in registry then
            var k := registry[resources[o].typ];
            old(containers)[k := (if k in old(containers) then old(containers)[k] else {}) + {o}]
          else old(containers)
      ensures collections == old(collections) && groups == old(groups) && rights == old(rights) && outbox == old(outbox)
      ensures resources == old(resources) && actors == old(actors) && registry == old(registry)
    {
      var o := IdOf(a.obj);
      if o !in resources {
        return Failed(NotFound);
      }
      if isRemote && storeSucceeds {
        cache := cache + {o};
        var typ := resources[o].typ;
        if typ in registry {
          var k := registry[typ];
          containers := containers[k := (if k in containers then containers[k] else {}) + {o}];
        }
        // otherwise: "no matching containers", caught and logged
      }
      outcome := Done;
    }

    /** offerAnnounce.onEmit: when the creator offers an Announce, the targets
        become announcers of the object, in order, until `fault` stops the
        target loop. From anyone else it does nothing. */
    method OfferEmit(a: Node, fault: AddFault) returns (outcome: Outcome)
      requires Matches(OfferAnnouncePattern, a) && Valid()
      modifies this
      ensures Valid()
      ensures var o := IdOf(a.obj.obj);
        outcome == (if o !in resources then Failed(NotFound)
                    else if a.actor != resources[o].creator then Done
                    else if AnnouncersGroup(o) in old(groups) then Failed(GroupExists)
                    else if Announces(o) !in old(collections) then Failed(NotAttached)
                    else if Interrupted(fault, ToSeq(a.target)) then Failed(AddFailed)
                    else Done)
      ensures var o := IdOf(a.obj.obj);
        o !in resources || a.actor != resources[o].creator ==>
          collections == old(collections) && groups == old(groups) && rights == old(rights)
      ensures var o := IdOf(a.obj.obj);
        o in resources && a.actor == resources[o].creator &&
        (AnnouncersGroup(o) in old(groups) || Announces(o) !in old(collections)) ==>
          && collections == old(collections)[Announcers(o) :=
               (if Announcers(o) in old(collections) then old(collections)[Announcers(o)] else {}) + {a.actor}]
          && groups == (if AnnouncersGroup(o) in old(groups) then old(groups) else old(groups)[AnnouncersGroup(o) := {}])
          && rights == old(rights)
      ensures var o, ts := IdOf(a.obj.obj), ToSeq(a.target);
        o in resources && a.actor == resources[o].creator &&
        AnnouncersGroup(o) !in old(groups) && Announces(o) in old(collections) ==>
          && collections == old(collections)[Announcers(o) :=
               (if Announcers(o) in old(collections) then old(collections)[Announcers(o)] else {}) + {a.actor}
               + Members(CollectionPart(ts, fault))]
          && groups == old(groups)[AnnouncersGroup(o) := Members(GroupPart(ts, fault))]
          && rights == old(rights) + {Read(Coll(Announces(o)), AnnouncersGroup(o))}
      ensures var o := IdOf(a.obj.obj);
        o in resources && a.actor == resources[o].creator && outcome.Done? ==>
          CollectionPart(ToSeq(a.target), fault) == ToSeq(a.target) && GroupPart(ToSeq(a.target), fault) == ToSeq(a.target)
      ensures outbox == old(outbox) && cache == old(cache) && containers == old(containers)
      ensures resources == old(resources) && actors == old(actors) && registry == old(registry)
    {
      var o := IdOf(a.obj.obj);
      if o !in resources {
        return Failed(NotFound);
      }
      if a.actor != resources[o].creator {
        return Done;
      }
      CreateAndAttach(Announcers(o));
      outcome := GiveRightsAfterAnnouncersCollectionCreate(o);
      if outcome.Failed? {
        return;
      }
      var ts := ToSeq(a.target);
      ghost var given := collections[Announcers(o)];
      FaultParts(ts, fault);
      outcome := AddAll(AnnouncersGroup(o), ts, fault);
      UpdateTwice(old(collections), Announcers(o), given, given + Members(CollectionPart(ts, fault)));
      UpdateTwice(old(groups), AnnouncersGroup(o), {}, {} + Members(GroupPart(ts, fault)));
      assert {} + Members(GroupPart(ts, fault)) == Members(GroupPart(ts, fault));
    }

    /** offerAnnounce.onReceive: the creator receives an announcer's request to
        announce the object to the actors of the inner Announce's target. */
    method OfferReceive(a: Node) returns (outcome: Outcome)
      requires Matches(OfferAnnouncePattern, a) && Valid()
      modifies this
      ensures Valid()
      ensures var o := IdOf(a.obj.obj);
        outcome == (if o !in resources then Failed(NotFound)
                    else if a.target != One(resources[o].creator) || Announcers(o) !in collections then Done
                    else if resources[o].creator !in actors then Failed(ActorNotFound)
                    else if a.actor !in collections[Announcers(o)] then Failed(NotAnnouncer)
                    else Done)
      ensures var o := IdOf(a.obj.obj);
        outbox ==
          if o in resources && a.target == One(resources[o].creator) && Announcers(o) in collections
             && resources[o].creator in actors && a.actor in collections[Announcers(o)]
          then old(outbox) + [Sent(resources[o].creator, ANNOUNCE, o, a.obj.target, a.obj.target)]
          else old(outbox)
      ensures collections == old(collections) && groups == old(groups) && rights == old(rights)
      ensures cache == old(cache) && containers == old(containers)
      ensures resources == old(resources) && actors == old(actors) && registry == old(registry)
    {
      var o := IdOf(a.obj.obj);
      if o !in resources {
        return Failed(NotFound);
      }
      var creator := resources[o].creator;
      if a.target != One(creator) {
        return Done;
      }
      if Announcers(o) !in collections {
        // "No announcers collection attached", skipped with a warning
        return Done;
      }
      if creator !in actors {
        return Failed(ActorNotFound);
      }
      if a.actor !in collections[Announcers(o)] {
        return Failed(NotAnnouncer);
      }
      outbox := outbox + [Sent(creator, ANNOUNCE, o, a.obj.target, a.obj.target)];
      outcome := Done;
    }
  }
}
