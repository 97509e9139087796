/** Galleries: the cap, the order, the one primary photo, and the thumbnail that follows it. */
module Media {
  import opened Wrappers

  const MAX_PHOTO_BYTES: nat := 10 * 1024 * 1024
  const MAX_VIDEO_BYTES: nat := 250 * 1024 * 1024
  const MAX_VIDEO_SECONDS: nat := 60
  const MAX_MEDIA_ITEMS: nat := 20

  type UserId = string
  type MediaId = nat
  type Key = string

  datatype Kind = Photo | Video

  datatype Upload = Upload(key: Key, kind: Kind, bytes: nat, seconds: Option<nat>)

  datatype Item = Item(user: UserId, upload: Upload, url: string, isPrimary: bool, sortOrder: int)

  datatype Error =
    | TooLarge | NotYours | NotInStorage | StorageDown | SizeMismatch
    | GalleryFull | CheckViolated | NotFound | OnlyPhotos

  // bucket gives the size of each stored object; thumbnails has a key for every user with a profile.
  datatype State = State(
    cdnBase: string,
    bucket: map<Key, nat>,
    items: map<MediaId, Item>,
    nextId: MediaId,
    thumbnails: map<UserId, Option<string>>)

  function ItemsOf(items: map<MediaId, Item>, user: UserId): set<MediaId> {
    set id | id in items && items[id].user == user
  }

  function PhotosOf(items: map<MediaId, Item>, user: UserId): set<MediaId> {
    set id | id in items && items[id].user == user && items[id].upload.kind.Photo?
  }

  predicate IsTop(items: map<MediaId, Item>, ids: set<MediaId>, top: MediaId)
    requires ids <= items.Keys
  {
    top in ids && forall id | id in ids :: items[id].sortOrder <= items[top].sortOrder
  }

  predicate IsBottom(items: map<MediaId, Item>, ids: set<MediaId>, bottom: MediaId)
    requires ids <= items.Keys
  {
    bottom in ids && forall id | id in ids :: items[bottom].sortOrder <= items[id].sortOrder
  }

  /** Some item comes last. */
  ghost function Top(items: map<MediaId, Item>, ids: set<MediaId>): (top: MediaId)
    requires ids <= items.Keys && ids != {}
    ensures IsTop(items, ids, top)
  {
    var id :| id in ids;
    if ids == {id} then id
    else
      var rest := Top(items, ids - {id});
      if items[id].sortOrder <= items[rest].sortOrder then rest else id
  }

  /** Some item comes first. */
  ghost function Bottom(items: map<MediaId, Item>, ids: set<MediaId>): (bottom: MediaId)
    requires ids <= items.Keys && ids != {}
    ensures IsBottom(items, ids, bottom)
  {
    var id :| id in ids;
    if ids == {id} then id
    else
      var rest := Bottom(items, ids - {id});
      if items[rest].sortOrder <= items[id].sortOrder then rest else id
  }

  function Prefix(user: UserId): Key { "uploads/" + user + "/" }

  predicate SizeAllowed(kind: Kind, bytes: nat) {
    match kind
    case Photo => bytes <= MAX_PHOTO_BYTES
    case Video => bytes <= MAX_VIDEO_BYTES
  }

  /** What is refused before the database is asked; up says whether storage answers. */
  function Screen(bucket: map<Key, nat>, user: UserId, upload: Upload, up: bool): Option<Error> {
    if !SizeAllowed(upload.kind, upload.bytes) then Some(TooLarge)
    else if !(Prefix(user) <= upload.key) then Some(NotYours)
    else if !up then Some(StorageDown)
    else if upload.key !in bucket then Some(NotInStorage)
    else if bucket[upload.key] != upload.bytes then Some(SizeMismatch)
    else None
  }

  /** The table's own constraint on videos; a missing length passes it. */
  predicate DurationAllowed(upload: Upload) {
    upload.kind.Video? && upload.seconds.Some? ==> upload.seconds.value <= MAX_VIDEO_SECONDS
  }

  function Synced(thumbnails: map<UserId, Option<string>>, user: UserId, url: Option<string>)
    : map<UserId, Option<string>>
  {
    if user in thumbnails then thumbnails[user := url] else thumbnails
  }

  ghost function NextOrder(items: map<MediaId, Item>, user: UserId): int {
    var mine := ItemsOf(items, user);
    if mine == {} then 0 else items[Top(items, mine)].sortOrder + 1
  }

  ghost function AfterConfirm(s: State, user: UserId, upload: Upload, up: bool): Result<State, Error> {
    if Screen(s.bucket, user, upload, up).Some? then Err(Screen(s.bucket, user, upload, up).value)
    else if |ItemsOf(s.items, user)| >= MAX_MEDIA_ITEMS then Err(GalleryFull)
    else if !DurationAllowed(upload) then Err(CheckViolated)
    else
      var url := s.cdnBase + "/" + upload.key;
      var isPrimary := ItemsOf(s.items, user) == {} && upload.kind.Photo?;
      Ok(s.(items := s.items[s.nextId := Item(user, upload, url, isPrimary, NextOrder(s.items, user))],
            nextId := s.nextId + 1,
            thumbnails := if isPrimary then Synced(s.thumbnails, user, Some(url)) else s.thumbnails))
  }

  function Owned(items: map<MediaId, Item>, user: UserId, id: MediaId): Option<Error> {
    if id !in items then Some(NotFound) else if items[id].user != user then Some(NotYours) else None
  }

  function WithPrimary(items: map<MediaId, Item>, user: UserId, id: MediaId): map<MediaId, Item> {
    map i | i in items ::
      if i == id then items[i].(isPrimary := true)
      else if items[i].user == user then items[i].(isPrimary := false) else items[i]
  }

  function AfterSetPrimary(s: State, user: UserId, id: MediaId): Result<State, Error> {
    if Owned(s.items, user, id).Some? then Err(Owned(s.items, user, id).value)
    else if !s.items[id].upload.kind.Photo? then Err(OnlyPhotos)
    else Ok(s.(items := WithPrimary(s.items, user, id),
        thumbnails := Synced(s.thumbnails, user, Some(s.items[id].url))))
  }

  /** The row goes whatever storage says; a primary's place is taken by the first photo left. */
  ghost function AfterRemove(s: State, user: UserId, id: MediaId, up: bool): Result<State, Error> {
    if Owned(s.items, user, id).Some? then Err(Owned(s.items, user, id).value)
    else
      var rest, photos := s.items - {id}, PhotosOf(s.items - {id}, user);
      var s' := s.(items := rest, bucket := if up then s.bucket - {s.items[id].upload.key} else s.bucket);
      Ok(if !s.items[id].isPrimary then s'
         else if photos == {} then s'.(thumbnails := Synced(s.thumbnails, user, None))
         else
           var next := Bottom(rest, photos);
           s'.(items := rest[next := rest[next].(isPrimary := true)],
               thumbnails := Synced(s.thumbnails, user, Some(rest[next].url))))
  }

  // ---- What every run keeps ----

  ghost predicate Fits(items: map<MediaId, Item>, user: UserId) { |ItemsOf(items, user)| <= MAX_MEDIA_ITEMS }

  ghost predicate CapKept(items: map<MediaId, Item>) { forall user: UserId :: Fits(items, user) }

  ghost predicate OrdersDistinct(items: map<MediaId, Item>) {
    forall i, j | i in items && j in items && i != j && items[i].user == items[j].user ::
        items[i].sortOrder != items[j].sortOrder
  }

  ghost predicate OnePrimary(items: map<MediaId, Item>) {
    && (forall i | i in items && items[i].isPrimary :: items[i].upload.kind.Photo?)
    && (forall i, j | i in items && j in items && i != j && items[i].user == items[j].user ::
        !(items[i].isPrimary && items[j].isPrimary))
  }

  ghost predicate HasPrimary(items: map<MediaId, Item>, user: UserId) {
    exists id :: id in items && items[id].user == user && items[id].isPrimary
  }

  ghost predicate ThumbnailTrue(s: State, user: UserId)
    requires user in s.thumbnails
  {
    && (forall id | id in s.items && s.items[id].user == user && s.items[id].isPrimary ::
        s.thumbnails[user] == Some(s.items[id].url))
    && (s.thumbnails[user].Some? ==> HasPrimary(s.items, user))
  }

  ghost predicate RowsTrue(s: State) {
    forall id | id in s.items ::
      && id < s.nextId
      && Prefix(s.items[id].user) <= s.items[id].upload.key
      && s.items[id].url == s.cdnBase + "/" + s.items[id].upload.key
      && SizeAllowed(s.items[id].upload.kind, s.items[id].upload.bytes) && DurationAllowed(s.items[id].upload)
  }

  ghost predicate GalleryKept(items: map<MediaId, Item>) {
    CapKept(items) && OrdersDistinct(items) && OnePrimary(items)
  }

  ghost predicate ThumbnailsTrue(s: State) {
    forall user | user in s.thumbnails :: ThumbnailTrue(s, user)
  }

  ghost predicate Inv(s: State) { RowsTrue(s) && GalleryKept(s.items) && ThumbnailsTrue(s) }

  /** Steps on one user's gallery are invisible in everybody else's. */
  lemma OthersThumbnails(s: State, s': State, user: UserId)
    requires ThumbnailsTrue(s) && s'.thumbnails.Keys == s.thumbnails.Keys
    requires forall u | u in s.thumbnails && u != user :: s'.thumbnails[u] == s.thumbnails[u]
    requires forall id | id in s.items && s.items[id].user != user :: id in s'.items && s'.items[id] == s.items[id]
    requires forall id | id in s'.items && s'.items[id].user != user :: id in s.items && s'.items[id] == s.items[id]
    requires user in s.thumbnails ==> ThumbnailTrue(s', user)
    ensures ThumbnailsTrue(s')
  {
    forall u | u in s'.thumbnails && u != user
      ensures ThumbnailTrue(s', u)
    {
      assert ThumbnailTrue(s, u);
      if HasPrimary(s.items, u) {
        var id :| id in s.items && s.items[id].user == u && s.items[id].isPrimary;
        assert s'.items[id] == s.items[id];
      }
    }
  }

  lemma InsertKeepsCap(items: map<MediaId, Item>, id: MediaId, item: Item)
    requires CapKept(items) && id !in items && |ItemsOf(items, item.user)| < MAX_MEDIA_ITEMS
    ensures CapKept(items[id := item])
  {
    var items' := items[id := item];
    assert ItemsOf(items', item.user) == ItemsOf(items, item.user) + {id};
    forall u: UserId
      ensures Fits(items', u)
    {
      assert Fits(items, u);
      if u != item.user {
        assert ItemsOf(items', u) == ItemsOf(items, u);
      }
    }
  }

  lemma InsertKeepsGallery(items: map<MediaId, Item>, id: MediaId, item: Item)
    requires GalleryKept(items) && id !in items
    requires |ItemsOf(items, item.user)| < MAX_MEDIA_ITEMS
    requires forall i | i in items && items[i].user == item.user ::
        items[i].sortOrder != item.sortOrder && !item.isPrimary
    requires item.isPrimary ==> item.upload.kind.Photo?
    ensures GalleryKept(items[id := item])
  {
    InsertKeepsCap(items, id, item);
  }

  lemma TopsAgree(items: map<MediaId, Item>, user: UserId, top: MediaId)
    requires IsTop(items, ItemsOf(items, user), top)
    ensures NextOrder(items, user) == items[top].sortOrder + 1
  {
    var mine := ItemsOf(items, user);
    assert mine != {};
    assert IsTop(items, mine, Top(items, mine));
    assert items[Top(items, mine)].sortOrder <= items[top].sortOrder;
  }

  /** The next position is past every one in use. */
  lemma NextOrderIsLast(items: map<MediaId, Item>, user: UserId, id: MediaId)
    requires id in items && items[id].user == user
    ensures items[id].sortOrder < NextOrder(items, user)
  {
    assert id in ItemsOf(items, user);
    assert IsTop(items, ItemsOf(items, user), Top(items, ItemsOf(items, user)));
  }

  /** No two photos can both come first. */
  lemma OneBottom(items: map<MediaId, Item>, user: UserId, a: MediaId, b: MediaId)
    requires OrdersDistinct(items) && IsBottom(items, PhotosOf(items, user), a)
        && IsBottom(items, PhotosOf(items, user), b)
    ensures a == b
  {
    assert items[a].sortOrder <= items[b].sortOrder <= items[a].sortOrder;
  }

  lemma ConfirmKeeps(s: State, user: UserId, upload: Upload, up: bool)
    requires Inv(s) && AfterConfirm(s, user, upload, up).Ok?
    ensures Inv(AfterConfirm(s, user, upload, up).value)
  {
    ConfirmKeepsRows(s, user, upload, up);
    ConfirmKeepsGallery(s, user, upload, up);
    ConfirmKeepsThumbnails(s, user, upload, up);
  }

  lemma ConfirmKeepsRows(s: State, user: UserId, upload: Upload, up: bool)
    requires RowsTrue(s) && AfterConfirm(s, user, upload, up).Ok?
    ensures RowsTrue(AfterConfirm(s, user, upload, up).value)
  {
  }

  lemma ConfirmKeepsGallery(s: State, user: UserId, upload: Upload, up: bool)
    requires GalleryKept(s.items) && s.nextId !in s.items && AfterConfirm(s, user, upload, up).Ok?
    ensures GalleryKept(AfterConfirm(s, user, upload, up).value.items)
  {
    var item := AfterConfirm(s, user, upload, up).value.items[s.nextId];
    forall i | i in s.items && s.items[i].user == user
      ensures s.items[i].sortOrder < item.sortOrder && !item.isPrimary
    {
      NextOrderIsLast(s.items, user, i);
      assert i in ItemsOf(s.items, user);
    }
    InsertKeepsGallery(s.items, s.nextId, item);
  }

  lemma ConfirmKeepsThumbnails(s: State, user: UserId, upload: Upload, up: bool)
    requires ThumbnailsTrue(s) && s.nextId !in s.items && AfterConfirm(s, user, upload, up).Ok?
    ensures ThumbnailsTrue(AfterConfirm(s, user, upload, up).value)
  {
    if user in s.thumbnails {
      ConfirmKeepsThumbnail(s, user, upload, up);
    }
    OthersThumbnails(s, AfterConfirm(s, user, upload, up).value, user);
  }

  lemma ConfirmKeepsThumbnail(s: State, user: UserId, upload: Upload, up: bool)
    requires user in s.thumbnails && ThumbnailTrue(s, user) && s.nextId !in s.items
        && AfterConfirm(s, user, upload, up).Ok?
    ensures ThumbnailTrue(AfterConfirm(s, user, upload, up).value, user)
  {
    var s' := AfterConfirm(s, user, upload, up).value;
    if s'.items[s.nextId].isPrimary {
      assert forall i | i in s.items && s.items[i].user == user :: i in ItemsOf(s.items, user);
      assert HasPrimary(s'.items, user);
    } else if HasPrimary(s.items, user) {
      var id :| id in s.items && s.items[id].user == user && s.items[id].isPrimary;
      assert s'.items[id] == s.items[id];
    }
  }

  lemma SameGallery(items: map<MediaId, Item>, user: UserId, id: MediaId)
    requires GalleryKept(items) && id in items && items[id].user == user && items[id].upload.kind.Photo?
    ensures GalleryKept(WithPrimary(items, user, id))
  {
    var items' := WithPrimary(items, user, id);
    forall u: UserId
      ensures Fits(items', u)
    {
      assert Fits(items, u) && ItemsOf(items', u) == ItemsOf(items, u);
    }
  }

  lemma SetPrimaryKeeps(s: State, user: UserId, id: MediaId)
    requires Inv(s) && AfterSetPrimary(s, user, id).Ok?
    ensures Inv(AfterSetPrimary(s, user, id).value)
  {
    var s' := AfterSetPrimary(s, user, id).value;
    SameGallery(s.items, user, id);
    assert s'.items[id].isPrimary;
    OthersThumbnails(s, s', user);
  }

  lemma DeleteKeepsGallery(items: map<MediaId, Item>, id: MediaId)
    requires GalleryKept(items)
    ensures GalleryKept(items - {id})
  {
    var rest := items - {id};
    forall u: UserId
      ensures Fits(rest, u)
    {
      assert Fits(items, u) && ItemsOf(rest, u) == ItemsOf(items, u) - {id};
    }
  }

  lemma PromoteKeepsGallery(items: map<MediaId, Item>, next: MediaId)
    requires GalleryKept(items) && next in items && items[next].upload.kind.Photo?
        && !HasPrimary(items, items[next].user)
    ensures GalleryKept(items[next := items[next].(isPrimary := true)])
  {
    var items' := items[next := items[next].(isPrimary := true)];
    forall u: UserId
      ensures Fits(items', u)
    {
      assert Fits(items, u) && ItemsOf(items', u) == ItemsOf(items, u);
    }
  }

  lemma RemoveKeepsGallery(s: State, user: UserId, id: MediaId, up: bool)
    requires Inv(s) && AfterRemove(s, user, id, up).Ok?
    ensures GalleryKept(AfterRemove(s, user, id, up).value.items)
  {
    DeleteKeepsGallery(s.items, id);
    var rest, photos := s.items - {id}, PhotosOf(s.items - {id}, user);
    if s.items[id].isPrimary && photos != {} {
      PromoteKeepsGallery(rest, Bottom(rest, photos));
    }
  }

  lemma RemoveKeepsThumbnail(s: State, user: UserId, id: MediaId, up: bool)
    requires Inv(s) && AfterRemove(s, user, id, up).Ok? && user in s.thumbnails
    ensures ThumbnailTrue(AfterRemove(s, user, id, up).value, user)
  {
    var s' := AfterRemove(s, user, id, up).value;
    var rest, photos := s.items - {id}, PhotosOf(s.items - {id}, user);
    assert ThumbnailTrue(s, user);
    if s.items[id].isPrimary && photos != {} {
      assert s'.items[Bottom(rest, photos)].isPrimary;
    } else if !s.items[id].isPrimary && HasPrimary(s.items, user) {
      var i :| i in s.items && s.items[i].user == user && s.items[i].isPrimary;
      assert i in rest;
    }
  }

  lemma RemoveKeepsRows(s: State, user: UserId, id: MediaId, up: bool)
    requires RowsTrue(s) && AfterRemove(s, user, id, up).Ok?
    ensures RowsTrue(AfterRemove(s, user, id, up).value)
  {
    FewerRowsTrue(s, AfterRemove(s, user, id, up).value);
  }

  lemma FewerRowsTrue(s: State, s': State)
    requires RowsTrue(s) && s'.nextId == s.nextId && s'.cdnBase == s.cdnBase
    requires forall i | i in s'.items :: i in s.items && s'.items[i].(isPrimary := s.items[i].isPrimary) == s.items[i]
    ensures RowsTrue(s')
  {
    forall i | i in s'.items
      ensures s'.items[i].user == s.items[i].user && s'.items[i].upload == s.items[i].upload
          && s'.items[i].url == s.items[i].url
    {
      assert s'.items[i].(isPrimary := s.items[i].isPrimary) == s.items[i];
    }
  }

  lemma RemoveKeepsThumbnails(s: State, user: UserId, id: MediaId, up: bool)
    requires Inv(s) && AfterRemove(s, user, id, up).Ok?
    ensures ThumbnailsTrue(AfterRemove(s, user, id, up).value)
  {
    if user in s.thumbnails {
      RemoveKeepsThumbnail(s, user, id, up);
    }
    RemoveTouchesOne(s, user, id, up);
    OthersThumbnails(s, AfterRemove(s, user, id, up).value, user);
  }

  lemma RemoveTouchesOne(s: State, user: UserId, id: MediaId, up: bool)
    requires AfterRemove(s, user, id, up).Ok?
    ensures var s' := AfterRemove(s, user, id, up).value;
            && s'.thumbnails.Keys == s.thumbnails.Keys
            && (forall u | u in s.thumbnails && u != user :: s'.thumbnails[u] == s.thumbnails[u])
            && (forall i | i in s.items && s.items[i].user != user :: i in s'.items && s'.items[i] == s.items[i])
            && (forall i | i in s'.items && s'.items[i].user != user :: i in s.items && s'.items[i] == s.items[i])
  {
  }

  lemma RemoveKeeps(s: State, user: UserId, id: MediaId, up: bool)
    requires Inv(s) && AfterRemove(s, user, id, up).Ok?
    ensures Inv(AfterRemove(s, user, id, up).value)
  {
    RemoveKeepsRows(s, user, id, up);
    RemoveKeepsGallery(s, user, id, up);
    RemoveKeepsThumbnails(s, user, id, up);
  }

  class MediaService {
    const cdnBase: string
    var bucket: map<Key, nat>
    var items: map<MediaId, Item>
    var nextId: MediaId
    var thumbnails: map<UserId, Option<string>>

    ghost function View(): State
      reads this
    {
      State(cdnBase, bucket, items, nextId, thumbnails)
    }

    constructor (cdnBase: string, profiles: set<UserId>)
      ensures View() == State(cdnBase, map[], map[], 0, map u | u in profiles :: None)
    {
      this.cdnBase, bucket, items, nextId := cdnBase, map[], map[], 0;
      thumbnails := map u | u in profiles :: None;
    }

    /** Checks the upload, then counts, numbers and inserts under the user's lock. */
    method Confirm(user: UserId, upload: Upload, up: bool) returns (r: Result<MediaId, Error>)
      modifies this
      ensures match AfterConfirm(old(View()), user, upload, up)
              case Err(e) => r == Err(e) && View() == old(View())
              case Ok(s) => r == Ok(old(nextId)) && View() == s
    {
      if !SizeAllowed(upload.kind, upload.bytes) {
        return Err(TooLarge);
      }
      if !(Prefix(user) <= upload.key) {
        return Err(NotYours);
      }
      if !up {
        return Err(StorageDown);
      }
      if upload.key !in bucket {
        return Err(NotInStorage);
      }
      if bucket[upload.key] != upload.bytes {
        return Err(SizeMismatch);
      }
      var url := cdnBase + "/" + upload.key;
      var mine := ItemsOf(items, user);
      if |mine| >= MAX_MEDIA_ITEMS {
        return Err(GalleryFull);
      }
      var sortOrder := 0;
      if mine != {} {
        ghost var last := Top(items, mine);
        var top :| top in mine && IsTop(items, mine, top);
        TopsAgree(items, user, top);
        sortOrder := items[top].sortOrder + 1;
      }
      var isPrimary := |mine| == 0 && upload.kind.Photo?;
      if !DurationAllowed(upload) {
        return Err(CheckViolated);
      }
      r := Ok(nextId);
      items, nextId := items[nextId := Item(user, upload, url, isPrimary, sortOrder)], nextId + 1;
      if isPrimary {
        SyncThumbnail(user, Some(url));
      }
    }

    method SetPrimary(user: UserId, id: MediaId) returns (r: Result<(), Error>)
      modifies this`items, this`thumbnails
      ensures match AfterSetPrimary(old(View()), user, id)
              case Err(e) => r == Err(e) && View() == old(View())
              case Ok(s) => r == Ok(()) && View() == s
    {
      if id !in items {
        return Err(NotFound);
      }
      var item := items[id];
      if item.user != user {
        return Err(NotYours);
      }
      if !item.upload.kind.Photo? {
        return Err(OnlyPhotos);
      }
      ghost var before := items;
      items := map i | i in items ::
          if items[i].user == user && items[i].isPrimary then items[i].(isPrimary := false) else items[i];
      items := items[id := items[id].(isPrimary := true)];
      assert items == WithPrimary(before, user, id);
      SyncThumbnail(user, Some(item.url));
      r := Ok(());
    }

    /** The row first, then the object; a storage failure leaves the object behind. */
    method Remove(user: UserId, id: MediaId, up: bool) returns (r: Result<(), Error>)
      requires OrdersDistinct(items)
      modifies this`items, this`bucket, this`thumbnails
      ensures match AfterRemove(old(View()), user, id, up)
              case Err(e) => r == Err(e) && View() == old(View())
              case Ok(s) => r == Ok(()) && View() == s
    {
      if id !in items {
        return Err(NotFound);
      }
      var item := items[id];
      if item.user != user {
        return Err(NotYours);
      }
      items := items - {id};
      if up {
        bucket := bucket - {item.upload.key};
      }
      if item.isPrimary {
        var photos := PhotosOf(items, user);
        if photos != {} {
          ghost var first := Bottom(items, photos);
          var next :| next in photos && IsBottom(items, photos, next);
          OneBottom(items, user, next, first);
          items := items[next := items[next].(isPrimary := true)];
          SyncThumbnail(user, Some(items[next].url));
        } else {
          SyncThumbnail(user, None);
        }
      }
      r := Ok(());
    }

    method SyncThumbnail(user: UserId, url: Option<string>)
      modifies this`thumbnails
      ensures thumbnails == Synced(old(thumbnails), user, url)
    {
      if user in thumbnails {
        thumbnails := thumbnails[user := url];
      }
    }
  }
}
