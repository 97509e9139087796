/** What each gallery operation takes and does, told from the rows. */
module GallerySteps {
  import opened Wrappers
  import opened Media
  import opened MediaRuns

  const MEBIBYTE: nat := 1_048_576

  /**
   * The upload may be confirmed: the right size, under the user's own prefix, in storage as
   * announced, and a video no longer than a minute.
   */
  predicate Sound(s: State, user: UserId, upload: Upload) {
    && upload.bytes <= (if upload.kind.Photo? then 10 * MEBIBYTE else 250 * MEBIBYTE)
    && "uploads/" + user + "/" <= upload.key
    && upload.key in s.bucket && s.bucket[upload.key] == upload.bytes
    && (upload.kind.Video? && upload.seconds.Some? ==> upload.seconds.value <= 60)
  }

  /** A sound upload is taken exactly while storage answers and its owner has fewer than twenty items. */
  lemma ConfirmSucceeds(s: State, user: UserId, upload: Upload, up: bool)
    ensures AfterConfirm(s, user, upload, up).Ok? <==>
              Sound(s, user, upload) && up && |set id | id in s.items && s.items[id].user == user| < 20
  {
    assert (set id | id in s.items && s.items[id].user == user) == ItemsOf(s.items, user);
  }

  /** What is checked first is what is complained of. */
  lemma ConfirmRefusals(s: State, user: UserId, upload: Upload, up: bool)
    requires AfterConfirm(s, user, upload, up).Err?
    ensures var e := AfterConfirm(s, user, upload, up).error;
            var tooLarge := upload.bytes > (if upload.kind.Photo? then 10 * MEBIBYTE else 250 * MEBIBYTE);
            var stored := upload.key in s.bucket && s.bucket[upload.key] == upload.bytes;
            && (e == TooLarge <==> tooLarge)
            && (e == NotYours <==> !tooLarge && !("uploads/" + user + "/" <= upload.key))
            && (e == StorageDown ==> !up) && (e == NotInStorage ==> up && upload.key !in s.bucket)
            && (e == SizeMismatch ==> up && upload.key in s.bucket && !stored)
            && (e == GalleryFull || e == CheckViolated ==> up && stored)
            && (e == GalleryFull ==> |set id | id in s.items && s.items[id].user == user| >= 20)
            && (e == CheckViolated ==> upload.kind.Video? && |set id | id in s.items && s.items[id].user == user| < 20)
            && e != NotFound && e != OnlyPhotos
  {
    assert (set id | id in s.items && s.items[id].user == user) == ItemsOf(s.items, user);
  }

  /**
   * It becomes the owner's last item, one place past the one before, and the primary only as a photo
   * in an empty gallery; then, and only then, the profile shows it. Nothing else changes.
   */
  lemma ConfirmAdds(s: State, user: UserId, upload: Upload, up: bool)
    requires AfterConfirm(s, user, upload, up).Ok?
    ensures var s', n := Apply(s, Confirm(user, upload, up)), s.nextId;
            && s'.cdnBase == s.cdnBase && s'.bucket == s.bucket && s'.nextId == n + 1
            && n in s'.items && s'.items == s.items[n := s'.items[n]]
            && s'.items[n].user == user && s'.items[n].upload == upload
            && s'.items[n].url == s.cdnBase + "/" + upload.key
            && (s'.items[n].isPrimary <==>
                  upload.kind.Photo? && forall id | id in s.items :: s.items[id].user != user)
            && (forall u | u in s.thumbnails ::
                  u in s'.thumbnails
                  && s'.thumbnails[u] == if u == user && s'.items[n].isPrimary then Some(s'.items[n].url)
                                         else s.thumbnails[u])
            && s'.thumbnails.Keys == s.thumbnails.Keys
  {
    if id :| id in s.items && s.items[id].user == user {
      assert id in ItemsOf(s.items, user);
    }
  }

  /** The first place is 0, and every later one is the next after the last. */
  lemma PlacesAreConsecutive(s: State, user: UserId, upload: Upload, up: bool)
    requires AfterConfirm(s, user, upload, up).Ok?
    ensures var s', n := Apply(s, Confirm(user, upload, up)), s.nextId;
            && n in s'.items
            && ((forall id | id in s.items :: s.items[id].user != user) ==> s'.items[n].sortOrder == 0)
            && (forall id | id in s.items && s.items[id].user == user :: s.items[id].sortOrder < s'.items[n].sortOrder)
            && ((exists id :: id in s.items && s.items[id].user == user) ==>
                  exists id :: id in s.items && s.items[id].user == user
                               && s'.items[n].sortOrder == s.items[id].sortOrder + 1)
  {
    var mine := ItemsOf(s.items, user);
    if mine != {} {
      assert IsTop(s.items, mine, Top(s.items, mine));
    }
    forall id | id in s.items && s.items[id].user == user
      ensures id in mine && s.items[id].sortOrder < NextOrder(s.items, user)
    {
      NextOrderIsLast(s.items, user, id);
    }
  }

  /**
   * A user's own photo can be made primary; then it is the only one, and the profile shows it.
   * Nothing else changes.
   */
  lemma PrimaryMoves(s: State, user: UserId, id: MediaId)
    ensures AfterSetPrimary(s, user, id).Ok? <==>
              id in s.items && s.items[id].user == user && s.items[id].upload.kind.Photo?
    ensures AfterSetPrimary(s, user, id).Err? ==>
              AfterSetPrimary(s, user, id).error
              == if id !in s.items then NotFound else if s.items[id].user != user then NotYours else OnlyPhotos
    ensures var s' := Apply(s, SetPrimary(user, id));
            && s' == s.(items := s'.items, thumbnails := s'.thumbnails)
            && s'.items.Keys == s.items.Keys && s'.thumbnails.Keys == s.thumbnails.Keys
            && (AfterSetPrimary(s, user, id).Ok? ==>
                  && (forall i | i in s.items ::
                        s'.items[i] == if s.items[i].user == user then s.items[i].(isPrimary := i == id)
                            else s.items[i])
                  && (forall u | u in s.thumbnails ::
                        s'.thumbnails[u] == if u == user then Some(s.items[id].url) else s.thumbnails[u]))
  {
  }

  /**
   * A user's own item can be removed, whatever storage says; its object goes with it exactly when
   * storage answers, and no other.
   */
  lemma RemovalTakesItsObject(s: State, user: UserId, id: MediaId, up: bool)
    ensures AfterRemove(s, user, id, up).Ok? <==> id in s.items && s.items[id].user == user
    ensures AfterRemove(s, user, id, up).Err? ==>
              AfterRemove(s, user, id, up).error == if id !in s.items then NotFound else NotYours
    ensures var s' := Apply(s, Remove(user, id, up));
            && s' == s.(bucket := s'.bucket, items := s'.items, thumbnails := s'.thumbnails)
            && s'.thumbnails.Keys == s.thumbnails.Keys
            && (AfterRemove(s, user, id, up).Ok? ==>
                  forall key: Key ::
                    && (key in s'.bucket <==> key in s.bucket && !(up && key == s.items[id].upload.key))
                    && (key in s'.bucket ==> s'.bucket[key] == s.bucket[key]))
  {
  }
}
