/**
 * The admin lists (ManageAssociates, ManageMedicalCenters, ManageCoupons, ManageSpecialists,
 * ManageBenefits, ManageScheduleUsers): six copies of one page, a list view and a form view
 * over a list of records with a key and a visible/hidden flag. The page is modelled once,
 * generic in the record and key types, and instantiated per record type.
 */
module AdminLists {
  import opened Base
  import opened Strings
  import opened Lists
  import opened Types

  // ---------------------------------------------------------------------------
  // The list operations
  // ---------------------------------------------------------------------------

  /** `s.map(r => hit(r) ? f(r) : r)`. */
  function MapWhere<R>(s: seq<R>, hit: R -> bool, f: R -> R): (r: seq<R>)
    ensures |r| == |s|
    ensures forall i :: 0 <= i < |s| ==> r[i] == if hit(s[i]) then f(s[i]) else s[i]
  {
    if s == [] then [] else [if hit(s[0]) then f(s[0]) else s[0]] + MapWhere(s[1..], hit, f)
  }

  function HasKey<R, K(==)>(keyOf: R -> K, id: K): R -> bool
  {
    (r: R) => keyOf(r) == id
  }

  function LacksKey<R, K(==)>(keyOf: R -> K, id: K): R -> bool
  {
    (r: R) => keyOf(r) != id
  }

  /** `handleToggleStatus(id)`: the records with that key are flipped, the others kept. */
  function ToggleWhere<R, K(==)>(s: seq<R>, keyOf: R -> K, flip: R -> R, id: K): (r: seq<R>)
    ensures |r| == |s|
    ensures forall i :: 0 <= i < |s| && keyOf(s[i]) != id ==> r[i] == s[i]
    ensures forall i :: 0 <= i < |s| && keyOf(s[i]) == id ==> r[i] == flip(s[i])
  {
    MapWhere(s, HasKey(keyOf, id), flip)
  }

  /** A flip that keeps the key and undoes itself makes toggling twice the identity. */
  lemma ToggleTwice<R(!new), K>(s: seq<R>, keyOf: R -> K, flip: R -> R, id: K)
    requires forall x :: keyOf(flip(x)) == keyOf(x) && flip(flip(x)) == x
    ensures ToggleWhere(ToggleWhere(s, keyOf, flip, id), keyOf, flip, id) == s
  {
    var once := ToggleWhere(s, keyOf, flip, id);
    var twice := ToggleWhere(once, keyOf, flip, id);
    forall i | 0 <= i < |s|
      ensures twice[i] == s[i]
    {
      if keyOf(s[i]) == id {
        assert once[i] == flip(s[i]) && keyOf(once[i]) == id;
      }
    }
  }

  /** A confirmed `handleDelete(id)`: every record with that key goes, the rest stay in order. */
  function DeleteWhere<R, K(==)>(s: seq<R>, keyOf: R -> K, id: K): (r: seq<R>)
    ensures |r| <= |s|
  {
    Filter(s, LacksKey(keyOf, id))
  }

  /** Deleting keeps exactly the records with another key. */
  lemma DeleteMembers<R(!new), K>(s: seq<R>, keyOf: R -> K, id: K)
    ensures forall x :: x in DeleteWhere(s, keyOf, id) <==> x in s && keyOf(x) != id
    ensures forall i :: 0 <= i < |DeleteWhere(s, keyOf, id)| ==> keyOf(DeleteWhere(s, keyOf, id)[i]) != id
    ensures (forall i :: 0 <= i < |s| ==> keyOf(s[i]) != id) ==> DeleteWhere(s, keyOf, id) == s
  {
    FilterMembers(s, LacksKey(keyOf, id));
    if forall i :: 0 <= i < |s| ==> keyOf(s[i]) != id {
      FilterAll(s, LacksKey(keyOf, id));
    }
  }

  /** Deletion keeps the order of what stays: deleting from a concatenation deletes from each part. */
  lemma DeleteAppend<R, K>(a: seq<R>, b: seq<R>, keyOf: R -> K, id: K)
    ensures DeleteWhere(a + b, keyOf, id) == DeleteWhere(a, keyOf, id) + DeleteWhere(b, keyOf, id)
  {
    FilterAppend(a, b, LacksKey(keyOf, id));
  }

  /** The update branch of `handleSave`: records with the saved key become `merge(data, old)`. */
  function ReplaceWhere<R, K(==)>(s: seq<R>, keyOf: R -> K, data: R, merge: (R, R) -> R): (r: seq<R>)
    ensures |r| == |s|
    ensures forall i :: 0 <= i < |s| && keyOf(s[i]) != keyOf(data) ==> r[i] == s[i]
    ensures forall i :: 0 <= i < |s| && keyOf(s[i]) == keyOf(data) ==> r[i] == merge(data, s[i])
  {
    MapWhere(s, HasKey(keyOf, keyOf(data)), (x: R) => merge(data, x))
  }

  /** The merge of every page but the users page: the saved record replaces the old one. */
  function Overwrite<R>(data: R, previous: R): R
  {
    data
  }

  /** Saving an edit of a record that is in the list puts the edit in its place. */
  lemma SaveEditReplaces<R, K>(s: seq<R>, keyOf: R -> K, data: R, i: int)
    requires 0 <= i < |s| && keyOf(s[i]) == keyOf(data)
    ensures ReplaceWhere(s, keyOf, data, Overwrite)[i] == data
    ensures data in ReplaceWhere(s, keyOf, data, Overwrite)
  {
  }

  // ---------------------------------------------------------------------------
  // The page
  // ---------------------------------------------------------------------------

  datatype View = List | Form

  /**
   * One admin page: its view, its records and the record being edited. The page's key, its
   * visibility flip, the record it builds for a new entry from the form data and the clock,
   * and the way an edit is merged into the stored record are fixed when the page is made.
   */
  class CrudPage<R(!new), K(==)> {
    const keyOf: R -> K
    const flip: R -> R
    const create: (R, int) -> R
    const merge: (R, R) -> R
    var view: View
    var items: seq<R>
    var editing: Option<R>

    /** The flip is the visible/hidden toggle: it keeps the key and undoes itself. */
    ghost predicate Valid()
      reads this
    {
      forall x :: keyOf(flip(x)) == keyOf(x) && flip(flip(x)) == x
    }

    constructor (initial: seq<R>, keyOf: R -> K, flip: R -> R, create: (R, int) -> R, merge: (R, R) -> R)
      requires forall x :: keyOf(flip(x)) == keyOf(x) && flip(flip(x)) == x
      ensures Valid()
      ensures this.keyOf == keyOf && this.flip == flip && this.create == create && this.merge == merge
      ensures view == List && items == initial && editing == None
    {
      this.keyOf := keyOf;
      this.flip := flip;
      this.create := create;
      this.merge := merge;
      view, items, editing := List, initial, None;
    }

    method ToggleStatus(id: K)
      requires Valid()
      modifies this
      ensures Valid()
      ensures items == ToggleWhere(old(items), keyOf, flip, id)
      ensures view == old(view) && editing == old(editing)
    {
      items := ToggleWhere(items, keyOf, flip, id);
    }

    /** `handleDelete(id)`; `confirmed` is the answer to `window.confirm`. */
    method Delete(id: K, confirmed: bool)
      requires Valid()
      modifies this
      ensures Valid()
      ensures items == if confirmed then DeleteWhere(old(items), keyOf, id) else old(items)
      ensures view == old(view) && editing == old(editing)
    {
      if confirmed {
        items := DeleteWhere(items, keyOf, id);
      }
    }

    /** `handleEdit`: the form opens preloaded with the record. */
    method Edit(record: R)
      requires Valid()
      modifies this
      ensures Valid()
      ensures view == Form && editing == Some(record) && items == old(items)
    {
      editing := Some(record);
      view := Form;
    }

    /** `handleCreateNew`: the form opens empty. */
    method CreateNew()
      requires Valid()
      modifies this
      ensures Valid()
      ensures view == Form && editing == None && items == old(items)
    {
      editing := None;
      view := Form;
    }

    /**
     * `handleSave`: while editing, the records with the saved key are replaced by the page's
     * merge of the saved data into them; while creating, the page's new record for the data
     * at `now` (the `Date.now()` of the handler) is appended. Either way the page returns to
     * the list with nothing being edited.
     */
    method Save(data: R, now: int)
      requires Valid()
      modifies this
      ensures Valid()
      ensures old(editing).Some? ==> items == ReplaceWhere(old(items), keyOf, data, merge)
      ensures old(editing).None? ==> items == old(items) + [create(data, now)]
      ensures view == List && editing == None
    {
      if editing.Some? {
        items := ReplaceWhere(items, keyOf, data, merge);
      } else {
        items := items + [create(data, now)];
      }
      view := List;
      editing := None;
    }

    /** The back button and the form's cancel: the list is untouched. */
    method Cancel()
      requires Valid()
      modifies this
      ensures Valid()
      ensures view == List && items == old(items) && editing == old(editing)
    {
      view := List;
    }
  }

  // ---------------------------------------------------------------------------
  // The six record types
  // ---------------------------------------------------------------------------

  function FlipAssociate(a: Associate): Associate { a.(status := Toggled(a.status)) }
  function FlipCenter(c: MedicalCenter): MedicalCenter { c.(status := Toggled(c.status)) }
  function FlipCoupon(c: Coupon): Coupon { c.(status := Toggled(c.status)) }
  function FlipSpecialist(s: Specialist): Specialist { s.(status := Toggled(s.status)) }
  function FlipOffer(o: Offer): Offer { o.(status := Toggled(o.status)) }
  function FlipUser(u: ScheduleUser): ScheduleUser { u.(status := Toggled(u.status)) }

  function AssociateId(a: Associate): int { a.id }
  function CenterId(c: MedicalCenter): string { c.id }
  function CouponId(c: Coupon): int { c.id }
  function SpecialistId(s: Specialist): int { s.id }
  function OfferId(o: Offer): int { o.id }
  function UserId(u: ScheduleUser): int { u.id }

  /** Toggling a record flips its visibility and nothing else. */
  lemma FlipsChangeOnlyStatus(a: Associate, c: MedicalCenter, p: Coupon, s: Specialist, o: Offer, u: ScheduleUser)
    ensures FlipAssociate(a).status != a.status && FlipAssociate(a).(status := a.status) == a
    ensures FlipCenter(c).status != c.status && FlipCenter(c).(status := c.status) == c
    ensures FlipCoupon(p).status != p.status && FlipCoupon(p).(status := p.status) == p
    ensures FlipSpecialist(s).status != s.status && FlipSpecialist(s).(status := s.status) == s
    ensures FlipOffer(o).status != o.status && FlipOffer(o).(status := o.status) == o
    ensures FlipUser(u).status != u.status && FlipUser(u).(status := u.status) == u
  {
  }

  /** Toggling any of the six lists twice with the same key restores it. */
  lemma ToggleTwiceEveryList(associates: seq<Associate>, centers: seq<MedicalCenter>, coupons: seq<Coupon>,
                             specialists: seq<Specialist>, offers: seq<Offer>, users: seq<ScheduleUser>,
                             id: int, centerId: string)
    ensures ToggleWhere(ToggleWhere(associates, AssociateId, FlipAssociate, id), AssociateId, FlipAssociate, id) == associates
    ensures ToggleWhere(ToggleWhere(centers, CenterId, FlipCenter, centerId), CenterId, FlipCenter, centerId) == centers
    ensures ToggleWhere(ToggleWhere(coupons, CouponId, FlipCoupon, id), CouponId, FlipCoupon, id) == coupons
    ensures ToggleWhere(ToggleWhere(specialists, SpecialistId, FlipSpecialist, id), SpecialistId, FlipSpecialist, id) == specialists
    ensures ToggleWhere(ToggleWhere(offers, OfferId, FlipOffer, id), OfferId, FlipOffer, id) == offers
    ensures ToggleWhere(ToggleWhere(users, UserId, FlipUser, id), UserId, FlipUser, id) == users
  {
    ToggleTwice(associates, AssociateId, FlipAssociate, id);
    ToggleTwice(centers, CenterId, FlipCenter, centerId);
    ToggleTwice(coupons, CouponId, FlipCoupon, id);
    ToggleTwice(specialists, SpecialistId, FlipSpecialist, id);
    ToggleTwice(offers, OfferId, FlipOffer, id);
    ToggleTwice(users, UserId, FlipUser, id);
  }

  /** The new record of the pages that key by number: the saved data with `Date.now()` as id. */
  function NewAssociate(data: Associate, now: int): Associate { data.(id := now) }
  function NewCoupon(data: Coupon, now: int): Coupon { data.(id := now) }
  function NewSpecialist(data: Specialist, now: int): Specialist { data.(id := now) }
  function NewOffer(data: Offer, now: int): Offer { data.(id := now) }
  function NewUser(data: ScheduleUser, now: int): ScheduleUser { data.(id := now) }

  /**
   * `name.toLowerCase().replace(/\s+/g, '-')`: the id of a new medical center. Each run of
   * whitespace becomes one dash; nothing checks that the id is not taken.
   */
  function CenterSlug(name: string): (slug: string)
    ensures IsLowerCase(slug)
    ensures forall i :: 0 <= i < |slug| ==> !IsSpace(slug[i])
    ensures |slug| <= |name|
  {
    ToLowerIsLower(name);
    DashRunsProperties(ToLower(name));
    DashRuns(ToLower(name))
  }

  /** Replaces every maximal run of whitespace by a single `-`. */
  function DashRuns(s: string): string
    decreases |s|
  {
    if s == [] then []
    else if IsSpace(s[0]) then "-" + DashRuns(DropSpaces(s))
    else [s[0]] + DashRuns(s[1..])
  }

  lemma {:induction false} DashRunsProperties(s: string)
    ensures forall i :: 0 <= i < |DashRuns(s)| ==> !IsSpace(DashRuns(s)[i])
    ensures |DashRuns(s)| <= |s|
    ensures IsLowerCase(s) ==> IsLowerCase(DashRuns(s))
    decreases |s|
  {
    if s != [] {
      if IsSpace(s[0]) {
        DashRunsProperties(DropSpaces(s));
      } else {
        DashRunsProperties(s[1..]);
      }
    }
  }

  /** A word without whitespace passes through unchanged. */
  lemma {:induction false} DashRunsWord(w: string, rest: string)
    requires forall i :: 0 <= i < |w| ==> !IsSpace(w[i])
    ensures DashRuns(w + rest) == w + DashRuns(rest)
    decreases |w|
  {
    if w != [] {
      assert (w + rest)[0] == w[0] && !IsSpace(w[0]);
      assert (w + rest)[1..] == w[1..] + rest;
      DashRunsWord(w[1..], rest);
      calc {
        DashRuns(w + rest);
        [w[0]] + DashRuns(w[1..] + rest);
        [w[0]] + (w[1..] + DashRuns(rest));
        ([w[0]] + w[1..]) + DashRuns(rest);
        { assert [w[0]] + w[1..] == w; }
        w + DashRuns(rest);
      }
    } else {
      assert w + rest == rest && w + DashRuns(rest) == DashRuns(rest);
    }
  }

  /** A run of whitespace before a word becomes one dash. */
  lemma DashRunsGap(gap: string, rest: string)
    requires gap != [] && forall i :: 0 <= i < |gap| ==> IsSpace(gap[i])
    requires rest == [] || !IsSpace(rest[0])
    ensures DashRuns(gap + rest) == "-" + DashRuns(rest)
  {
    GapDropped(gap, rest);
  }

  lemma {:induction false} GapDropped(gap: string, rest: string)
    requires forall i :: 0 <= i < |gap| ==> IsSpace(gap[i])
    requires rest == [] || !IsSpace(rest[0])
    ensures DropSpaces(gap + rest) == rest
    decreases |gap|
  {
    if gap != [] {
      assert (gap + rest)[1..] == gap[1..] + rest;
      GapDropped(gap[1..], rest);
    } else {
      assert gap + rest == rest;
    }
  }

  /** Two words separated by any run of whitespace are joined by exactly one dash. */
  lemma DashRunsJoin(w1: string, gap: string, w2: string)
    requires forall i :: 0 <= i < |w1| ==> !IsSpace(w1[i])
    requires forall i :: 0 <= i < |w2| ==> !IsSpace(w2[i])
    requires gap != [] && forall i :: 0 <= i < |gap| ==> IsSpace(gap[i])
    ensures DashRuns(w1 + gap + w2) == w1 + "-" + w2
  {
    DashRunsWord(w2, "");
    assert w2 + "" == w2;
    DashRunsGap(gap, w2);
    assert w1 + gap + w2 == w1 + (gap + w2);
    DashRunsWord(w1, gap + w2);
  }

  /** The new record of the centres page: keyed by the slug of its name; the clock is not read. */
  function NewCenter(data: MedicalCenter, now: int): MedicalCenter { data.(id := CenterSlug(data.name)) }

  /** `{ ...userData, password: userData.password || u.password }`: an empty password keeps the old one. */
  function MergeUser(data: ScheduleUser, previous: ScheduleUser): (u: ScheduleUser)
    ensures TruthyString(data.password) ==> u == data
    ensures !TruthyString(data.password) ==> u == data.(password := previous.password)
  {
    data.(password := if TruthyString(data.password) then data.password else previous.password)
  }

  /** Editing a user without typing a password keeps the stored one, and changes the rest. */
  lemma SaveUserKeepsPassword(users: seq<ScheduleUser>, data: ScheduleUser, i: int)
    requires 0 <= i < |users| && users[i].id == data.id && !TruthyString(data.password)
    ensures ReplaceWhere(users, UserId, data, MergeUser)[i].password == users[i].password
    ensures ReplaceWhere(users, UserId, data, MergeUser)[i].(password := data.password) == data
  {
  }

  // ---------------------------------------------------------------------------
  // The admin page's six sections
  // ---------------------------------------------------------------------------

  method AssociatesPage(initial: seq<Associate>) returns (page: CrudPage<Associate, int>)
    ensures fresh(page) && page.Valid() && page.items == initial && page.view == List
    ensures page.keyOf == AssociateId && page.flip == FlipAssociate && page.create == NewAssociate && page.merge == Overwrite
  {
    page := new CrudPage(initial, AssociateId, FlipAssociate, NewAssociate, Overwrite);
  }

  method CentersPage(initial: seq<MedicalCenter>) returns (page: CrudPage<MedicalCenter, string>)
    ensures fresh(page) && page.Valid() && page.items == initial && page.view == List
    ensures page.keyOf == CenterId && page.flip == FlipCenter && page.create == NewCenter && page.merge == Overwrite
  {
    page := new CrudPage(initial, CenterId, FlipCenter, NewCenter, Overwrite);
  }

  method CouponsPage(initial: seq<Coupon>) returns (page: CrudPage<Coupon, int>)
    ensures fresh(page) && page.Valid() && page.items == initial && page.view == List
    ensures page.keyOf == CouponId && page.flip == FlipCoupon && page.create == NewCoupon && page.merge == Overwrite
  {
    page := new CrudPage(initial, CouponId, FlipCoupon, NewCoupon, Overwrite);
  }

  method SpecialistsPage(initial: seq<Specialist>) returns (page: CrudPage<Specialist, int>)
    ensures fresh(page) && page.Valid() && page.items == initial && page.view == List
    ensures page.keyOf == SpecialistId && page.flip == FlipSpecialist && page.create == NewSpecialist && page.merge == Overwrite
  {
    page := new CrudPage(initial, SpecialistId, FlipSpecialist, NewSpecialist, Overwrite);
  }

  method BenefitsPage(initial: seq<Offer>) returns (page: CrudPage<Offer, int>)
    ensures fresh(page) && page.Valid() && page.items == initial && page.view == List
    ensures page.keyOf == OfferId && page.flip == FlipOffer && page.create == NewOffer && page.merge == Overwrite
  {
    page := new CrudPage(initial, OfferId, FlipOffer, NewOffer, Overwrite);
  }

  method UsersPage(initial: seq<ScheduleUser>) returns (page: CrudPage<ScheduleUser, int>)
    ensures fresh(page) && page.Valid() && page.items == initial && page.view == List
    ensures page.keyOf == UserId && page.flip == FlipUser && page.create == NewUser && page.merge == MergeUser
  {
    page := new CrudPage(initial, UserId, FlipUser, NewUser, MergeUser);
  }

  /** Saving a new medical center appends it under its slug. */
  method SaveNewCenter(page: CrudPage<MedicalCenter, string>, data: MedicalCenter, now: int)
    requires page.Valid() && page.editing.None? && page.create == NewCenter
    modifies page
    ensures page.Valid()
    ensures page.items == old(page.items) + [data.(id := CenterSlug(data.name))]
    ensures page.items[|page.items| - 1].id == CenterSlug(data.name)
    ensures page.view == List && page.editing == None
  {
    page.Save(data, now);
  }

  /** Saving a new record on a page keyed by number: the data is appended with the clock as its id. */
  method SaveNewAssociate(page: CrudPage<Associate, int>, data: Associate, now: int)
    requires page.Valid() && page.editing.None? && page.create == NewAssociate
    modifies page
    ensures page.Valid()
    ensures page.items == old(page.items) + [data.(id := now)]
    ensures page.view == List && page.editing == None
  {
    page.Save(data, now);
  }

  /** Saving an edited associate: the stored record with that id is overwritten by the form's. */
  method SaveEditedAssociate(page: CrudPage<Associate, int>, data: Associate)
    requires page.Valid() && page.editing.Some? && page.keyOf == AssociateId && page.merge == Overwrite
    modifies page
    ensures page.Valid()
    ensures page.items == ReplaceWhere(old(page.items), AssociateId, data, Overwrite)
    ensures |page.items| == |old(page.items)|
    ensures forall i :: 0 <= i < |page.items| ==>
              page.items[i] == if old(page.items)[i].id == data.id then data else old(page.items)[i]
    ensures page.view == List && page.editing == None
  {
    page.Save(data, 0);  // the clock is read only when creating
  }

  /** Saving an edited user: the password falls back to the stored one when left empty. */
  method SaveEditedUser(page: CrudPage<ScheduleUser, int>, data: ScheduleUser)
    requires page.Valid() && page.editing.Some? && page.keyOf == UserId && page.merge == MergeUser
    modifies page
    ensures page.Valid()
    ensures page.items == ReplaceWhere(old(page.items), UserId, data, MergeUser)
    ensures page.view == List && page.editing == None
  {
    page.Save(data, 0);  // the clock is read only when creating
  }
}
