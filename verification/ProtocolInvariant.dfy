/** What holds of every state the grants protocol reaches, and what one call may
    rely on while another steps. */
module ProtocolInvariant {
  import opened Common
  import opened BucketPolicy
  import opened Permissions
  import opened Delegations
  import opened Protocol

  // ------------------------------------------------------------ the invariant

  /** No two calls hold conflicting locks. */
  ghost predicate Compatible(c: Call, d: Call) {
    forall l, m :: Holds(c, l, m) ==> !Blocks(d, l, m)
  }

  ghost predicate Exclusive(s: State) {
    forall i, j :: i in s.calls && j in s.calls && i != j ==> Compatible(s.calls[i], s.calls[j])
  }

  ghost predicate OwnKeys(s: State) {
    forall i, j :: i in s.calls && j in s.calls && i != j && s.calls[i].Creating? && s.calls[j].Creating? ==>
      s.calls[i].creation.k != s.calls[j].creation.k
  }

  /** Over b, if the committed policy grants p any command, k holds exactly the
      commands it grants. */
  ghost predicate Matches(s: State, k: Did, p: PrincipalId, b: Did) {
    Required(s, p, b) == {} || Held(s.grants, k, b) == Required(s, p, b)
  }

  ghost predicate InStep(s: State, k: Did, p: PrincipalId) {
    forall b :: Matches(s, k, p, b)
  }

  /** What a key holds over a bucket is nothing, or exactly what one revision of
      the bucket's policy grants its principal. */
  ghost predicate OneRevision(s: State, k: Did, b: Did) {
    || Held(s.grants, k, b) == {}
    || exists d :: Revision(b, d) in s.revisions && Held(s.grants, k, b) == Commands(Some(d), BoundTo(s, k))
  }

  ghost predicate RowsInv(s: State) {
    && (forall k :: k in s.keys ==> k in s.inserted && k in s.bound && s.bound[k] == s.keys[k])
    && s.created <= s.bound.Keys
    && s.inserted <= s.bound.Keys
    && s.policies.Keys <= s.buckets <= s.usedBuckets
    && (forall b :: b in s.policies ==> Revision(b, s.policies[b]) in s.revisions)
    && (forall d :: d in s.grants ==> d.link in s.minted)
    && WILDCARD !in s.live
  }

  /** Nothing refers to a principal that is not live. */
  ghost predicate NoDangling(s: State) {
    && (forall b :: b in s.policies ==> NamedSet(s.policies[b]) <= s.live)
    && (forall k :: k in s.keys ==> s.keys[k] in s.live)
  }

  ghost predicate CreatedInStep(s: State) {
    forall k :: k in s.created && k in s.keys && Clean(s, s.keys[k]) ==> InStep(s, k, s.keys[k])
  }

  ghost predicate TablesInv(s: State) {
    && RowsInv(s)
    && NoDangling(s)
    && (forall k, b :: OneRevision(s, k, b))
    && CreatedInStep(s)
  }

  ghost predicate WriteInv(s: State, w: Write) {
    && w.checked <= (if w.doc.Some? then NamedSet(w.doc.value) else {})
    && w.checked <= s.live
    && (w.stage >= BUCKET && w.doc.Some? ==> NamedSet(w.doc.value) <= w.checked)
    && (w.stage >= LOADED ==>
         && w.was == Policy(s, w.bucket)
         && Meets(w.condition, w.was)
         && (if w.doc.Some? then w.bucket in s.buckets else w.was.Some?))
    && (w.stage < AFFECTED ==> w.affected == {})
    && (w.stage < LISTED ==> w.listed == {})
    && w.locked <= w.affected
    && (forall p :: p in w.affected ==> EffectiveSet(w.was, p) != EffectiveSet(w.doc, p))
    && (w.stage >= AFFECTED && w.doc.Some? ==>
         forall p :: p in s.live && EffectiveSet(w.was, p) != EffectiveSet(w.doc, p) ==> p in w.affected)
    && (w.stage >= LISTED && w.doc.Some? ==> forall p :: p in w.affected && p in s.live ==> p in w.locked)
    && (w.stage >= LISTED && w.doc.Some? ==> forall k :: k in s.keys && s.keys[k] in w.affected ==> k in w.listed)
    && (forall k :: k in w.listed ==> k in s.inserted && k in s.bound && s.bound[k] in w.affected)
    && w.auds <= w.listed
    && (w.stage >= READ ==> w.listed <= w.auds)
    && (w.stage < READ ==> w.remaining == {})
    && w.remaining <= w.listed
    && (w.stage >= READ ==> forall k :: k in w.listed && k in s.keys ==> k in w.remaining)
    && (!w.rotates ==> w.stage <= LOADED)
  }

  /** w rewrites some document without p. */
  ghost predicate Strips(w: Write, p: PrincipalId) {
    && !w.rotates
    && exists d: Document :: w.condition == IfMatch(ETag(d)) && w.doc == StripWrite(w.bucket, d, p).doc
  }

  ghost predicate RemovalInv(s: State, r: Removal) {
    && (r.strip.Some? ==> r.stage == STRIPPING && WriteInv(s, r.strip.value) && Strips(r.strip.value, r.p))
    && (r.stage >= HELD ==> r.p in s.live)
    && (r.stage >= CHECKED ==> forall b :: b in s.policies ==> r.p !in NamedSet(s.policies[b]))
    && (r.stage >= LISTING_KEYS ==> forall k :: k in s.keys && s.keys[k] == r.p ==> k in r.listed)
    && (forall k :: k in r.listed ==> k in s.bound && s.bound[k] == r.p)
  }

  /** The creation will leave the key in step over b: b is still to be read, or
      nothing is required, or a rotation stored it, or what was read still
      holds. */
  ghost predicate Planned(s: State, r: KeyCreation, b: Did) {
    || (r.stage == LISTING && StillThere(s, r, b) && b !in r.docs)
    || Matches(s, r.k, r.p, b)
    || (b in r.docs && Required(s, r.p, b) == Commands(Some(r.docs[b]), r.p))
  }

  ghost predicate CreationInv(s: State, r: KeyCreation) {
    && r.k in s.bound && s.bound[r.k] == r.p
    && r.k !in s.created
    && (r.stage <= INSERTING ==> r.k !in s.inserted)
    && (r.stage == INSERTING ==> r.p in s.live)
    && (r.stage < LISTING ==> r.docs == map[])
    && (forall b :: b in r.docs ==> Revision(b, r.docs[b]) in s.revisions)
    && (LISTING <= r.stage <= OWN_LOCKED && r.k in s.keys && Clean(s, r.p) ==> forall b :: Planned(s, r, b))
    && (r.stage == STORED && r.k in s.keys && Clean(s, r.p) ==> InStep(s, r.k, r.p))
  }

  ghost predicate SamePair(d: Delegation, e: Delegation) {
    d.audience == e.audience && d.subject == e.subject
  }

  /** ds takes all of what a key holds over a bucket, or none of it. */
  ghost predicate WholePairs(grants: set<Delegation>, ds: set<Delegation>) {
    forall d, e :: d in grants && e in grants && SamePair(d, e) && d in ds ==> e in ds
  }

  ghost predicate DropInv(s: State, r: BucketDeletion) {
    && (forall d :: d in r.doomed ==> d.subject == r.b && d.link in s.minted)
    && WholePairs(s.grants, r.doomed)
  }

  ghost predicate Meet(a: set<Delegation>, b: set<Delegation>) {
    exists d :: d in a && d in b
  }

  ghost predicate InfoInv(s: State, r: InfoRequest) {
    && (forall d :: d in r.stored + r.chained + r.again ==> d.audience == r.k && d.subject == r.b && d.link in s.minted)
    && (r.stage >= POLICY_READ ==> forall d: Option<Document> :: TagOf(d) == r.tag ==> EffectiveSet(d, r.p) == r.eff)
    && (r.stage >= POLICY_READ ==> r.eff != {})
    && (r.stage <= POLICY_READ ==> r.chained == {})
    && (r.chained != {} ==> r.stored != {})
    && (Meet(r.stored, s.grants) ==> r.chained <= s.grants)
    && (r.stage < SETTLED ==> r.again == {})
    && (r.stage >= SETTLED ==>
         && TagOf(r.atPolicy) == r.tag
         && (forall d :: d in r.stored && d in s.grants ==> d in r.atGrants)
         && (forall d :: d in r.again && d in r.stored ==> d in r.atGrants)
         && (Meet(r.stored, r.atGrants) ==> r.chained <= r.atGrants))
    && (r.stage >= ANSWERED ==> r.again == r.stored)
  }

  ghost predicate CallInv(s: State, c: Call) {
    match c
    case Writing(w) => w.rotates && WriteInv(s, w)
    case Removing(r) => RemovalInv(s, r)
    case Creating(r) => CreationInv(s, r)
    case Deleting(_) => true
    case Adding(r) => r.p != WILDCARD
    case MakingBucket(_) => true
    case DroppingBucket(r) => DropInv(s, r)
    case Asking(r) => InfoInv(s, r)
  }

  ghost predicate InvParts(s: State) {
    && Exclusive(s)
    && OwnKeys(s)
    && TablesInv(s)
    && forall i :: i in s.calls ==> CallInv(s, s.calls[i])
  }

  /** The invariant as a whole: a quantifier, so that a proof that only passes it
      on does not take it apart. */
  ghost predicate Inv(s: State) {
    forall u :: u == s ==> InvParts(u)
  }

  lemma Whole(s: State)
    requires Inv(s)
    ensures InvParts(s)
  {}

  // ------------------------------------------- what a call relies on, others keep

  ghost predicate Others(s: State, id: nat, j: nat) {
    j in s.calls && j != id
  }

  /** No other call has the bucket's policy loaded for writing. */
  ghost predicate Unloaded(c: Call, b: Did) {
    !(HoldsSome(c, BucketLock(b)) && (HoldsSome(c, BucketRow(b)) || HoldsSome(c, PolicyRow(b))))
  }

  ghost predicate Owns(s: State, id: nat, k: Did) {
    id in s.calls && s.calls[id].Creating? && s.calls[id].creation.k == k
  }

  ghost predicate Grows(s: State, n: State) {
    && s.minted <= n.minted
    && s.revisions <= n.revisions
    && s.usedBuckets <= n.usedBuckets
    && s.inserted <= n.inserted
    && (forall k :: k in s.bound ==> k in n.bound && n.bound[k] == s.bound[k])
  }

  ghost predicate LiveRely(s: State, n: State, id: nat) {
    && (forall p, j :: p in s.live && p !in n.live && Others(s, id, j) ==> !HoldsSome(s.calls[j], PrincipalRow(p)))
    && (forall p, j :: p in n.live && p !in s.live && Others(s, id, j) ==> !HoldsSome(s.calls[j], TenantLock))
  }

  ghost predicate PolicyRely(s: State, n: State, id: nat) {
    && (forall b, j :: Policy(n, b) != Policy(s, b) && Others(s, id, j) ==> Unloaded(s.calls[j], b))
    && (forall b :: b in s.policies && b in n.policies ==> Born(n, b) == Born(s, b))
    && (forall b, j :: b in s.buckets && b !in n.buckets && Others(s, id, j) ==> Unloaded(s.calls[j], b))
    && (forall b, p, j :: b in n.policies && Policy(n, b) != Policy(s, b) && p in NamedSet(n.policies[b]) && Others(s, id, j) ==>
         !Holds(s.calls[j], PrincipalRow(p), Update))
  }

  ghost predicate KeysRely(s: State, n: State, id: nat) {
    && (forall k :: k in n.keys ==>
          if k in s.keys then n.keys[k] == s.keys[k]
          else
            && Owns(s, id, k) && k !in s.inserted && n.keys[k] in s.live
            && forall j :: Others(s, id, j) ==> !Blocks(s.calls[j], PrincipalRow(n.keys[k]), Share))
    && (forall k :: k in n.inserted && k !in s.inserted ==> Owns(s, id, k))
  }

  /** What a key holds over a bucket is kept, dropped or replaced as a whole, and
      nothing that was dropped comes back. */
  ghost predicate GrantsRely(s: State, n: State) {
    && (forall d :: d in n.grants ==> d in s.grants || (d.link !in s.minted && d.link in n.minted))
    && (forall d, e :: d in s.grants && e in s.grants && SamePair(d, e) && d in n.grants ==> e in n.grants)
    && (forall d, e :: d in s.grants && d in n.grants && e in n.grants && SamePair(d, e) ==> e in s.grants)
  }

  ghost predicate ProgressAt(s: State, n: State, k: Did, p: PrincipalId, b: Did) {
    || Matches(n, k, p, b)
    || (Required(n, p, b) == Required(s, p, b) && Held(n.grants, k, b) == Held(s.grants, k, b))
  }

  /** A key other than the stepping call's own gets no further out of step. */
  ghost predicate ProgressRely(s: State, n: State, id: nat) {
    forall k, b :: k in s.keys && k in n.keys && !Owns(s, id, k) && Clean(n, s.keys[k]) ==>
      ProgressAt(s, n, k, s.keys[k], b)
  }

  ghost predicate CleanRely(s: State, n: State) {
    forall p, k :: Clean(n, p) && !Clean(s, p) && k in n.keys ==> n.keys[k] != p
  }

  ghost predicate CreatedRely(s: State, n: State, id: nat) {
    forall k :: k in n.created && k !in s.created ==> Owns(s, id, k)
  }

  ghost predicate Rely(s: State, n: State, id: nat) {
    && Grows(s, n)
    && LiveRely(s, n, id)
    && PolicyRely(s, n, id)
    && KeysRely(s, n, id)
    && GrantsRely(s, n)
    && ProgressRely(s, n, id)
    && CleanRely(s, n)
    && CreatedRely(s, n, id)
  }

  // ------------------------------------------------------------------ stability

  lemma WriteStable(s: State, n: State, id: nat, j: nat, w: Write)
    requires RowsInv(s) && NoDangling(s) && RowsInv(n) && Rely(s, n, id)
    requires j in s.calls && j != id
    requires forall l, m :: WriteHolds(w, l, m) ==> Holds(s.calls[j], l, m)
    requires WriteInv(s, w)
    ensures WriteInv(n, w)
  {
    var c := s.calls[j];
    assert Others(s, id, j);
    forall p | p in w.checked ensures p in n.live {
      assert WriteHolds(w, PrincipalRow(p), KeyShare);
    }
    if w.stage >= LOADED {
      var b := w.bucket;
      assert WriteHolds(w, BucketLock(b), Update);
      if w.doc.Some? { assert WriteHolds(w, BucketRow(b), KeyShare); } else { assert WriteHolds(w, PolicyRow(b), Update); }
      assert !Unloaded(c, b);
      assert Policy(n, b) == Policy(s, b);
    }
    if w.stage >= AFFECTED && w.doc.Some? {
      assert WriteHolds(w, TenantLock, Share);
      assert forall p :: p in n.live ==> p in s.live;
    }
    if w.stage >= LISTED && w.doc.Some? {
      forall k | k in n.keys && n.keys[k] in w.affected ensures k in w.listed {
        if k !in s.keys {
          assert WriteHolds(w, PrincipalRow(n.keys[k]), NoKeyUpdate);
        }
      }
    }
    if w.stage >= READ {
      assert forall k :: k in w.listed && k in n.keys ==> k in s.keys;
    }
  }
}
