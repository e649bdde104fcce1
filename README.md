# ActivityPods authorization handlers, modelled in Dafny

This project models three parts of ActivityPods that decide who may read what:

- **Installation protocol** (pod side). An `apods:Install` activity carries the user's consent: the accepted access needs and the accepted special rights. Install turns that consent, together with the app's descriptor, into records:
  - DataGrant records;
  - one AccessGrant per AccessNeedGroup that grants something;
  - one ApplicationRegistration;
  - an outgoing `Create`.

  Two more handlers close the protocol. A `Reject` of the registration's `Create` deletes the registration, after two ownership checks. An `Undo` of the Install posts a `Delete` of the app's registration.
- **Announce protocol**. A creator announces a resource to actors. This keeps two things in step:
  - the resource's `apods:announces` collection and its WebACL group, which gets read rights on the resource;
  - the `apods:announcers` collection and its group, which gets read rights on the announces collection.

  An Offer of an Announce delegates the right to announce. The creator re-posts the Announce for an announcer.
- **Access-need bootstrap** (app side). `initialize` splits the app's configured access needs by necessity tier:
  - string entries become special rights;
  - object entries become AccessNeed records;
  - one AccessNeedGroup is posted per non-empty tier and attached to the app actor.

Each handler is a method of a class whose fields are the state the handler changes:

- `Installation.Pod` holds the pod's record store, its deletions, its outbox and the cached class descriptions.
- `Announcer.Server` holds the collections, the WebACL groups and rights, the outbox, and the remote-resource cache.
- `AccessNeeds.Backend` holds the app's store and the groups attached to its actor.

A store is an append-only log. Posting a record returns `Local(n)`, where n is the record's position in the log. Each method is tied to specification functions of the old state and of its inputs:

- `Grants` and `AccessGrantIds` for the group loop of Install;
- `Chosen` for the locale choice;
- `Unclaimed` for `preferredForClass`;
- `Posted` and `GroupUris` for `initialize`.

Lemmas state what those functions promise: filtering in declaration order, iff-conditions for creating records, the covering of every grant by the registration, one group per tier, and the worked example configuration. The activity match patterns form a small datatype with a matching predicate. Lemmas show that the handlers of each service are mutually exclusive.

Files:

- `activities.dfy`: URIs, activity nodes, JSON-LD multi-values, match patterns.
- `installation.dfy`: the installation protocol.
- `announcer.dfy`: the announce protocol.
- `access_needs.dfy`: the access-need bootstrap and the example app's configuration.

## Model

| member | source | states |
|---|---|---|
| `Activities.FirstMatch` | packages/core/services/installation/index.js:13-20 | The rule selection of the activity-handler mixin: the rule chosen matches the activity and no earlier rule does. None means no rule matches. |
| `Activities.InstallationRulesExclusive` | packages/core/services/installation/index.js:20-194 | The Install, Reject-of-Create-of-registration and Undo-of-Install patterns are pairwise exclusive. Whichever one matches an activity is the one the dispatcher selects. |
| `Activities.AnnouncerRulesExclusive` | packages/announcer/service.js:103-192 | The Announce and Offer-of-Announce patterns are exclusive. An activity matched by one is dispatched to that one only. |
| `Installation.NeedsUpToMembers` | packages/core/services/installation/index.js:37-57 | A need is given a DataGrant iff it is declared in the group and its URI is in the accepted list. There are never more grants than declared needs. |
| `Installation.RightsUpToMembers` | packages/core/services/installation/index.js:59-65 | A special right is recorded iff it is declared in the group and accepted. |
| `Installation.GrantedMembers` | packages/core/services/installation/index.js:32-65 | Both iff-conditions, for the needs and for the special rights of one AccessNeedGroup. |
| `Installation.NothingAcceptedNothingGranted` | packages/core/services/installation/index.js:37-59 | When the accepted field of a kind is falsy (absent, or an empty string), nothing of that kind is granted. |
| `Installation.SingleAcceptedValueMatchesSubstrings` | packages/core/services/installation/index.js:39 | The accepted field is tested with `.includes` without first being made an array. A single accepted value is a string, so `.includes` tests for a substring: accepting `.../needs/10` alone also accepts `.../needs/1`, which an array holding the same URI does not. |
| `Installation.GroupRecordsShape` | packages/core/services/installation/index.js:37-83 | One group posts one DataGrant per accepted need, in declaration order. Each DataGrant has dataOwner = emitter, grantee = app, scope interop:All and the need it satisfies. An AccessGrant is posted iff something was granted. Its hasDataGrant is exactly the minted DataGrant URIs and its special rights exactly the accepted ones. |
| `Installation.AccessGrantIdsPointToGrants` | packages/core/services/installation/index.js:68-83 | Every URI collected for hasAccessGrant names an AccessGrant record that the group loop posted. |
| `Installation.CoveringGrant` | packages/core/services/installation/index.js:32-84 | Every record the group loop posts is a collected AccessGrant, or a DataGrant that such an AccessGrant lists. |
| `Installation.PostedAccessGrantsCollected` | packages/core/services/installation/index.js:68-83 | Conversely, every AccessGrant the group loop posts is collected for hasAccessGrant. |
| `Installation.GrantsNoRegistration` | packages/core/services/installation/index.js:41-82 | The group loop posts DataGrants and AccessGrants only, never a registration. |
| `Installation.LastInLanguage` | packages/core/services/installation/index.js:97-104 | Returns the index of the last description set in the given language, or None exactly when no set has that language. |
| `Installation.ChosenMeaning` | packages/core/services/installation/index.js:97-108 | The description set chosen is the last set in the user's locale if there is one. Otherwise it is the last `en` set. There is no choice iff neither exists. |
| `Installation.UnclaimedMembers` | packages/core/services/installation/index.js:116-124 | A class enters preferredForClass iff a chosen description describes it and no live registration already claims it. |
| `Installation.RegistrationForApp` | packages/core/services/installation/index.js:198 | The registration found for an app is live, is a registration and has that app as agent. None means no live registration has that agent. |
| `Installation.CascadeRemovesRegistration` | packages/core/services/installation/index.js:180-185 | Deleting any registration in the store removes the registration itself. |
| `Installation.InstallThenCascade` | packages/core/services/installation/index.js:180-185 | The cascading delete of a registration made by Install reaches every DataGrant and AccessGrant that Install posted, so nothing is orphaned. |
| `Installation.Pod.FilterRights` | packages/core/services/installation/index.js:59-65 | The special-rights loop returns exactly the group's rights that `.includes` finds in the accepted field (membership for an array, substring for a string), in declaration order. |
| `Installation.Pod.PostDataGrants` | packages/core/services/installation/index.js:37-57 | The need loop appends exactly the DataGrants of the needs that `.includes` finds in the accepted field (membership for an array, substring for a string) and returns their URIs in order. |
| `Installation.Pod.PostGroupGrants` | packages/core/services/installation/index.js:33-83 | One group iteration appends exactly that group's records and returns its AccessGrant URI, if any. |
| `Installation.Pod.PostAllGrants` | packages/core/services/installation/index.js:32-84 | The group loop appends `Grants` of all groups in order and returns `AccessGrantIds` of them. |
| `Installation.Pod.ChooseDescriptions` | packages/core/services/installation/index.js:95-106 | The locale loop returns `Chosen` of the description sets and the user's locale. |
| `Installation.Pod.CacheDescriptions` | packages/core/services/installation/index.js:108-125 | Each chosen description is cached, in order. The returned list is the described classes no registration claims. The log is unchanged. |
| `Installation.Pod.Install` | packages/core/services/installation/index.js:25-150 | The grants are always posted. Install fails, after the grants and before any registration, iff the app has description sets but none in the locale or in `en`. Otherwise it appends exactly one registration (registeredBy = emitter, registeredAgent = app, hasAccessGrant in group order, the unclaimed classes) and posts exactly one `Create` of it to the app. |
| `Installation.Pod.RejectAppRegistration` | packages/core/services/installation/index.js:162-186 | Succeeds iff the registration exists, registeredBy = recipient and registeredAgent = the activity's actor. Only then does it remove the registration and its cascade, after which the registration is no longer live. Otherwise nothing changes. |
| `Installation.Pod.Uninstall` | packages/core/services/installation/index.js:195-209 | Without a registration for the app, nothing changes. Otherwise it posts exactly one `Delete` of that registration to the app and deletes nothing itself. |
| `Announcer.MirrorsCollectionAdd` | packages/announcer/service.js:130-134 | Adding an actor to a collection keeps every group a subset of its collection. |
| `Announcer.MirrorsMemberAdd` | packages/announcer/service.js:137-141 | Adding to a group an actor that its collection already holds keeps every group a subset of its collection. |
| `Announcer.FaultParts` | packages/announcer/service.js:130-142 | Without a fault, every target reaches both the collection and the group. A failing `addMember` leaves exactly the target it was called for in the collection but not in the group, because nothing is rolled back. A failing `collection.add` leaves the two equal. The group never gains a target that the collection did not. |
| `Announcer.Server.CollectionAdd` | packages/announcer/service.js:131-134 | `collection.add` adds one item to one collection and changes nothing else. |
| `Announcer.Server.MemberAdd` | packages/announcer/service.js:137-141 | `group.addMember` adds one member to one group and changes nothing else. |
| `Announcer.Server.CreateAndAttach` | packages/announcer/service.js:121-124 | The collection is created empty when missing and kept, with its members, otherwise. Nothing else changes. |
| `Announcer.Server.AddAll` | packages/announcer/service.js:130-142 | The loop fails exactly when the fault hits a target. Up to that point, the collection gains `CollectionPart` and the group `GroupPart`: all targets when there is no fault, and otherwise the prefix the loop reached, with no rollback. No other collection, group or right changes. |
| `Announcer.Server.GiveRightsAfterAnnouncesCollectionCreate` | packages/announcer/service.js:25-72 | The creator joins the announces collection. The announces group is created only if missing. It gets read rights on the resource, and on the creator's profile only when the creator has a url. |
| `Announcer.Server.GiveRightsAfterAnnouncersCollectionCreate` | packages/announcer/service.js:73-101 | The creator joins the announcers collection, then the group is created with no exists-check, so an existing group makes the action fail. The group then gets read rights on the announces collection. |
| `Announcer.Server.AnnounceEmit` | packages/announcer/service.js:108-143 | When the emitter is not the creator, it fails and no collection, group or right changes. After the give-rights action, the creator and the targets the loop reached are in the announces collection, the reached targets are in the announces group, and the rights are those of the give-rights action. It fails with `AddFailed` exactly when a target's `collection.add` or `addMember` throws. On success every target is in both. |
| `Announcer.Server.AnnounceReceive` | packages/announcer/service.js:144-184 | Does nothing for a local resource. A remote one is cached and attached to the container registered for its type. Any caching failure leaves that step undone and never fails the handler. |
| `Announcer.Server.OfferEmit` | packages/announcer/service.js:193-222 | No effect unless the actor is the object's creator. Otherwise the creator and the targets the loop reached join the announcers collection, the reached targets make up the new announcers group, and the group gets read rights on the announces collection. It fails exactly when group creation or the rights step fails, or a target's add throws. It states the state after each failure. On success every target is in both. |
| `Announcer.Server.OfferReceive` | packages/announcer/service.js:223-256 | No effect unless the offer targets the creator and an announcers collection exists. It fails, posting nothing, when the actor is not in the announcers collection. Otherwise it posts exactly one Announce from the creator, with object = the object and target = to = the inner target. No collection, group or right changes. |
| `AccessNeeds.Necessity` | packages/app/services/access-needs-groups.js:36-37 | `required` maps to interop:AccessRequired and every other tier to interop:AccessOptional. |
| `AccessNeeds.SpecialsMembers` | packages/app/services/access-needs-groups.js:26-29 | A special right is listed iff it is a string entry of the tier. |
| `AccessNeeds.NeedsMembers` | packages/app/services/access-needs-groups.js:30-45 | A need is posted iff it is an object entry of the tier. |
| `AccessNeeds.EntriesSplit` | packages/app/services/access-needs-groups.js:26-46 | Each entry is counted exactly once, as a need or as a special right. |
| `AccessNeeds.EntriesOfTier` | packages/app/services/access-needs-groups.js:26-46 | For a whole tier: both membership iffs, and the two lists together are as long as the entries. |
| `AccessNeeds.TierShape` | packages/app/services/access-needs-groups.js:25-66 | A non-empty tier posts one AccessNeed per object entry, in order, with the tier's necessity and the entry's class and mode. Then it posts one group with the same necessity, listing exactly those AccessNeeds and the tier's special rights. |
| `AccessNeeds.EmptyTier` | packages/app/services/access-needs-groups.js:25 | An empty tier posts and attaches nothing. |
| `AccessNeeds.OneGroupPerTier` | packages/app/services/access-needs-groups.js:21-69 | The number of attached groups equals the number of non-empty tiers. |
| `AccessNeeds.GroupUrisPointToGroups` | packages/app/services/access-needs-groups.js:48-68 | Every attached URI names an AccessNeedGroup that `initialize` posted. |
| `AccessNeeds.PostedGroupsAttached` | packages/app/services/access-needs-groups.js:48-68 | Conversely, every AccessNeedGroup that `initialize` posts is attached. |
| `AccessNeeds.GroupUrisIncreasing` | packages/app/services/access-needs-groups.js:68 | The attached URIs strictly increase, so no group is attached twice. |
| `AccessNeeds.Backend.InitializeTier` | packages/app/services/access-needs-groups.js:22-69 | One tier appends exactly its own records and attaches its group right after posting it, so no need of another tier enters its group. An empty tier does nothing. |
| `AccessNeeds.Backend.Initialize` | packages/app/services/access-needs-groups.js:20-71 | The tier loop appends `Posted` of all tiers in order and attaches `GroupUris` of them. |
| `AccessNeeds.ExampleRequiredSplit` | app-boilerplate/backend/services/app.service.js:15-26 | The example's required tier splits into the Event and Individual needs and [apods:ReadInbox, apods:ReadOutbox]. |
| `AccessNeeds.ExampleOptionalSplit` | app-boilerplate/backend/services/app.service.js:27 | The example's optional tier splits into no need and [apods:SendNotification]. |
| `AccessNeeds.ExamplePosted` | packages/app/services/access-needs-groups.js:25-58 | The records posted for the two example splits, and the attached groups Local(2) and Local(3). |
| `AccessNeeds.ExampleConfiguration` | app-boilerplate/backend/services/app.service.js:14-28 | On an empty store, the example configuration posts two required AccessNeeds, a required group with them and two special rights, and an optional group with no AccessNeed and one special right. Both groups are attached. |

## Left out

- I/O, network and clocks:
  - `ldp.remote.get` of the app and its groups, needs and description sets: the app descriptor is passed in already resolved.
  - The user's `schema:knowsLanguage` is a parameter.
  - Timestamps from `new Date().toISOString()` are one opaque parameter, used for grantedAt, registeredAt and updatedAt alike.
  - `ldp.remote.isRemote`, and whether `ldp.remote.store` succeeds, are parameters of `AnnounceReceive`.
  - Logging (`console.log`, `this.logger.warn`) is not modelled.
- Concurrency: redelivery and interleaving of handlers are not modelled. Each handler is one sequential method.
- The activity matcher (`matchActivity` / `ActivitiesHandlerMixin`) is foreign. Each handler requires that its pattern matches, with the assumed semantics that every declared field equals. `Activities.FirstMatch` stands for the mixin's selection of a rule, in declaration order.
- Collaborators modelled as state rather than code:
  - `app-registrations.delete` is assumed to cascade to the registration's AccessGrants and their DataGrants, as the comment at installation/index.js:180 says (`Cascade`).
  - `app-registrations.preferredAppForClass` is assumed to report whether a live registration lists the class in preferredForClass (`Claimed`).
  - `app-registrations.getForApp` is assumed to return the first live registration with that agent (`RegistrationForApp`).
  - `createAndAttachCollection` is modelled as ensure-exists.
  - `webacl.group.create` is assumed to fail on an existing group, and `webacl.resource.addRights` to fail without a resource.
  - WebACL rule evaluation is not modelled: rights are a set of (target, group) pairs.
- Derived URIs: the collection and group URIs (`getAnnouncesGroupUri`, `getAnnouncersGroupUri`, from `./utils`) are not part of this model. They are assumed to be one per object and kind.
- Empty-array truthiness: JavaScript treats an empty array as truthy. An accepted field that is present but empty therefore still runs the loop, while an empty string does not. `Listing` keeps these cases apart.
- Installation.Pod.Install: the app is taken as the id of `activity.object` (`IdOf`). The handler uses the raw value. When the object is inline, it passes the object itself to `ldp.remote.get` and stores it as grantee and registeredAgent. The model covers only the reference form, where the two agree.
- Installation.Pod.Uninstall: likewise, the app is the id of `activity.object.object`. The handler passes the raw value to `getForApp` and puts it in the `Delete`'s `to`. An inline app object is not modelled.
- Activities.Includes: a pod-local URI has no string form in the model, so a single accepted string never matches one. The need and special-right URIs the handler looks up come from the app's descriptor and are external.
- Announcer.Server.AddAll: only the target loop's calls can fail (`AddFault`). The other collaborator calls of the handlers, such as `ldp.resource.get`, `activitypub.actor.get`, the first `collection.add` and the `addRights` calls, are assumed to succeed, except for the failures the model names.
- Installation.Pod.Install: the awaited remote fetch of a class description and `class-description.attach` are reduced to recording the description URI in `cached`.
- Announcer.Server.AnnounceReceive: the container-registry lookup by dataset of the recipient and `ldp.registry.getUri` are collapsed into one registry map from type to container.
- Announcer.Server.OfferReceive: the outbox is one sequence for the server, not one per actor. The sender is recorded as the activity's actor.
