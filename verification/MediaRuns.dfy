/** Galleries over every run of uploads, confirmations, changes of primary and removals. */
module MediaRuns {
  import opened Wrappers
  import opened Media

  datatype Op =
    | Put(key: Key, bytes: nat)                               // an object reaches storage
    | Confirm(user: UserId, upload: Upload, up: bool)
    | SetPrimary(user: UserId, id: MediaId)
    | Remove(user: UserId, id: MediaId, up: bool)

  function OrUnchanged(r: Result<State, Error>, s: State): State {
    match r
    case Ok(s') => s'
    case Err(_) => s
  }

  ghost function Apply(s: State, op: Op): State {
    match op
    case Put(key, bytes) => s.(bucket := s.bucket[key := bytes])
    case Confirm(user, upload, up) => OrUnchanged(AfterConfirm(s, user, upload, up), s)
    case SetPrimary(user, id) => OrUnchanged(AfterSetPrimary(s, user, id), s)
    case Remove(user, id, up) => OrUnchanged(AfterRemove(s, user, id, up), s)
  }

  ghost function Run(s: State, ops: seq<Op>): State {
    if ops == [] then s else Apply(Run(s, ops[..|ops| - 1]), ops[|ops| - 1])
  }

  /** No media yet, and no thumbnails. */
  ghost predicate Init(s: State) {
    s.items == map[] && forall u | u in s.thumbnails :: s.thumbnails[u].None?
  }

  ghost predicate Reachable(s: State) {
    exists s0: State, ops: seq<Op> :: Init(s0) && s == Run(s0, ops)
  }

  lemma InitInv(s: State)
    requires Init(s)
    ensures Inv(s)
  {
    forall user: UserId
      ensures Fits(s.items, user)
    {
      assert ItemsOf(s.items, user) == {};
    }
  }

  lemma PutKeeps(s: State, key: Key, bytes: nat)
    requires Inv(s)
    ensures Inv(s.(bucket := s.bucket[key := bytes]))
  {
    var s' := s.(bucket := s.bucket[key := bytes]);
    forall u | u in s'.thumbnails
      ensures ThumbnailTrue(s', u)
    {
      assert ThumbnailTrue(s, u);
    }
  }

  lemma ApplyKeeps(s: State, op: Op)
    requires Inv(s)
    ensures Inv(Apply(s, op))
  {
    match op
    case Put(key, bytes) => PutKeeps(s, key, bytes);
    case Confirm(user, upload, up) =>
      if AfterConfirm(s, user, upload, up).Ok? {
        ConfirmKeeps(s, user, upload, up);
      }
    case SetPrimary(user, id) =>
      if AfterSetPrimary(s, user, id).Ok? {
        SetPrimaryKeeps(s, user, id);
      }
    case Remove(user, id, up) =>
      if AfterRemove(s, user, id, up).Ok? {
        RemoveKeeps(s, user, id, up);
      }
  }

  lemma {:induction false} RunKeeps(s: State, ops: seq<Op>)
    requires Inv(s)
    ensures Inv(Run(s, ops))
    decreases |ops|
  {
    if ops != [] {
      RunKeeps(s, ops[..|ops| - 1]);
      ApplyKeeps(Run(s, ops[..|ops| - 1]), ops[|ops| - 1]);
    }
  }

  lemma ReachableInv(s: State)
    requires Reachable(s)
    ensures Inv(s)
  {
    var s0: State, ops: seq<Op> :| Init(s0) && s == Run(s0, ops);
    InitInv(s0);
    RunKeeps(s0, ops);
  }

  /** Twenty items at the most, no two in one place, and at most one primary, which is a photo. */
  lemma GalleriesAreTidy(s: State, user: UserId, i: MediaId, j: MediaId)
    requires Reachable(s) && i in ItemsOf(s.items, user) && j in ItemsOf(s.items, user)
    ensures |ItemsOf(s.items, user)| <= 20
    ensures s.items[i].sortOrder == s.items[j].sortOrder ==> i == j
    ensures s.items[i].isPrimary ==> s.items[i].upload.kind.Photo?
    ensures s.items[i].isPrimary && s.items[j].isPrimary ==> i == j
  {
    ReachableInv(s);
    assert Fits(s.items, user);
  }

  /** The profile shows exactly the primary photo, or nothing when there is none. */
  lemma ThumbnailIsThePrimary(s: State, user: UserId, url: string)
    requires Reachable(s) && user in s.thumbnails
    ensures s.thumbnails[user] == Some(url) <==>
              exists id :: id in s.items && s.items[id].user == user && s.items[id].isPrimary && s.items[id].url == url
  {
    ReachableInv(s);
    assert ThumbnailTrue(s, user);
    if s.thumbnails[user] == Some(url) {
      var id :| id in s.items && s.items[id].user == user && s.items[id].isPrimary;
      assert s.items[id].url == url;
    }
  }

  /** A confirmed upload lands last in its owner's gallery, and nothing else in any gallery moves. */
  lemma NewItemComesLast(s: State, user: UserId, upload: Upload, up: bool)
    requires Reachable(s) && AfterConfirm(s, user, upload, up).Ok?
    ensures var items := Apply(s, Confirm(user, upload, up)).items;
            && items.Keys == s.items.Keys + {s.nextId} && s.nextId !in s.items
            && (forall i | i in s.items :: items[i] == s.items[i])
            && (forall i | i in ItemsOf(s.items, user) :: items[i].sortOrder < items[s.nextId].sortOrder)
  {
    ReachableInv(s);
    forall i | i in ItemsOf(s.items, user)
      ensures s.items[i].sortOrder < NextOrder(s.items, user)
    {
      NextOrderIsLast(s.items, user, i);
    }
  }

  /**
   * After a photo is confirmed its owner has a primary exactly when there was
   * one before or the gallery was empty: a photo that follows a video is not
   * made primary, though it is the first photo.
   */
  lemma FirstPhotoBecomesPrimary(s: State, user: UserId, upload: Upload, up: bool)
    requires Reachable(s) && upload.kind.Photo? && AfterConfirm(s, user, upload, up).Ok?
    ensures var s' := Apply(s, Confirm(user, upload, up));
            HasPrimary(s'.items, user) <==> HasPrimary(s.items, user) || ItemsOf(s.items, user) == {}
  {
    ReachableInv(s);
    var s' := Apply(s, Confirm(user, upload, up));
    if HasPrimary(s.items, user) {
      var id :| id in s.items && s.items[id].user == user && s.items[id].isPrimary;
      assert s'.items[id] == s.items[id];
    } else if ItemsOf(s.items, user) == {} {
      assert s'.items[s.nextId].isPrimary;
    } else {
      assert !s'.items[s.nextId].isPrimary;
    }
  }

  /** A video, then a photo: the first photo, and no primary. */
  lemma VideoFirstLeavesNoPrimary(s: State, video: Upload, photo: Upload)
    requires Init(s) && video.kind.Video? && photo.kind.Photo?
    requires Screen(s.bucket, "ana", video, true).None? && DurationAllowed(video)
        && Screen(s.bucket, "ana", photo, true).None?
    ensures var s' := Apply(Apply(s, Confirm("ana", video, true)), Confirm("ana", photo, true));
            && PhotosOf(s'.items, "ana") == {s.nextId + 1}
            && !HasPrimary(s'.items, "ana")
  {
    assert ItemsOf(s.items, "ana") == {};
    var s1 := Apply(s, Confirm("ana", video, true));
    assert ItemsOf(s1.items, "ana") == {s.nextId};
  }

  lemma PhotosLeft(s: State, user: UserId, id: MediaId, up: bool)
    requires AfterRemove(s, user, id, up).Ok?
    ensures PhotosOf(AfterRemove(s, user, id, up).value.items, user) == PhotosOf(s.items - {id}, user)
  {
  }

  lemma PrimaryLeft(s: State, user: UserId, id: MediaId, up: bool, first: MediaId)
    requires OnePrimary(s.items) && AfterRemove(s, user, id, up).Ok?
    requires first in s.items && s.items[first].user == user && s.items[first].isPrimary
    ensures HasPrimary(AfterRemove(s, user, id, up).value.items, user) <==> PhotosOf(s.items - {id}, user) != {}
  {
    var items, photos := AfterRemove(s, user, id, up).value.items, PhotosOf(s.items - {id}, user);
    if first != id {
      assert items[first].isPrimary && first in photos;
    } else if photos != {} {
      assert items[Bottom(s.items - {id}, photos)].isPrimary;
    }
  }

  /** A removal never leaves photos without a primary where there was one. */
  lemma PrimaryOutlivesRemoval(s: State, user: UserId, id: MediaId, up: bool)
    requires Reachable(s) && AfterRemove(s, user, id, up).Ok? && HasPrimary(s.items, user)
    ensures var items := Apply(s, Remove(user, id, up)).items;
            HasPrimary(items, user) <==> PhotosOf(items, user) != {}
  {
    ReachableInv(s);
    PhotosLeft(s, user, id, up);
    var first :| first in s.items && s.items[first].user == user && s.items[first].isPrimary;
    PrimaryLeft(s, user, id, up, first);
  }

  lemma RowsLeft(s: State, user: UserId, id: MediaId, up: bool)
    requires AfterRemove(s, user, id, up).Ok?
    ensures AfterRemove(s, user, id, up).value.items.Keys == s.items.Keys - {id}
  {
  }

  lemma BottomTakesOver(s: State, user: UserId, id: MediaId, up: bool, i: MediaId)
    requires OrdersDistinct(s.items) && AfterRemove(s, user, id, up).Ok? && i in s.items && i != id
    ensures var items, rest := AfterRemove(s, user, id, up).value.items, s.items - {id};
            && i in items && items[i].(isPrimary := s.items[i].isPrimary) == s.items[i]
            && (items[i].isPrimary <==>
                  s.items[i].isPrimary || (s.items[id].isPrimary && IsBottom(rest, PhotosOf(rest, user), i)))
  {
    var rest := s.items - {id};
    var photos := PhotosOf(rest, user);
    if s.items[id].isPrimary && IsBottom(rest, photos, i) {
      OneBottom(rest, user, i, Bottom(rest, photos));
    }
  }

  /** Exactly one row goes; the first photo left becomes primary if that row was, and nothing else changes. */
  lemma RemovalPromotesTheFirst(s: State, user: UserId, id: MediaId, up: bool, i: MediaId)
    requires Reachable(s) && AfterRemove(s, user, id, up).Ok?
    ensures var items, rest := Apply(s, Remove(user, id, up)).items, s.items - {id};
            && items.Keys == rest.Keys
            && (i in items ==>
                  && items[i].(isPrimary := s.items[i].isPrimary) == s.items[i]
                  && (items[i].isPrimary <==>
                        s.items[i].isPrimary || (s.items[id].isPrimary && IsBottom(rest, PhotosOf(rest, user), i))))
  {
    ReachableInv(s);
    RowsLeft(s, user, id, up);
    if i in s.items && i != id {
      BottomTakesOver(s, user, id, up, i);
    }
  }

  lemma PrefixesDiffer(u: UserId, v: UserId, key: Key)
    requires '/' !in u && '/' !in v && Prefix(u) <= key && Prefix(v) <= key
    ensures u == v
  {
    var n := |"uploads/"|;
    assert forall k | 0 <= k < |u| :: key[n + k] == Prefix(u)[n + k] == u[k];
    assert forall k | 0 <= k < |v| :: key[n + k] == Prefix(v)[n + k] == v[k];
    assert key[n + |u|] == Prefix(u)[n + |u|] == '/' && key[n + |v|] == Prefix(v)[n + |v|] == '/';
    assert |u| == |v|;
  }

  /**
   * A removal takes no object from anybody else: another user's rows, and
   * every other row under another key, keep the objects they had.
   */
  lemma RemovalSparesOthers(s: State, user: UserId, id: MediaId, up: bool, other: MediaId)
    requires Reachable(s) && AfterRemove(s, user, id, up).Ok? && other in s.items && other != id
    requires '/' !in user && '/' !in s.items[other].user && s.items[other].upload.key in s.bucket
    ensures var s' := Apply(s, Remove(user, id, up));
            && other in s'.items && s'.items[other].upload == s.items[other].upload
            && (s.items[other].upload.key in s'.bucket <==> !up || s.items[other].upload.key != s.items[id].upload.key)
            && (s.items[other].user != user ==> s.items[other].upload.key in s'.bucket)
  {
    ReachableInv(s);
    if s.items[other].upload.key == s.items[id].upload.key {
      PrefixesDiffer(user, s.items[other].user, s.items[id].upload.key);
    }
  }
}
