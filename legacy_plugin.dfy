/**
 * The legacy revision's `Plugin` (Authenticator/lib/Plugin.php): `$this->data`, an array of
 * records keyed by user id that is not an array until `init` normalises it, the accessors
 * by id, and the login gate. Both legacy action controllers keep their records here.
 */
module LegacyPlugin {
  import opened Wrappers
  import opened Models
  import opened Host
  import Plugin

  /** `$this->data`: None while it is not an array, the records by user id otherwise. */
  type Table = Option<map<int, Record>>

  /** `(array)$this->data`: a non-array reads as the empty array. */
  function Entries(t: Table): (m: map<int, Record>)
    ensures t.None? ==> m == map[]
    ensures t.Some? ==> m == t.value
  {
    if t.None? then map[] else t.value
  }

  /** `isset($this->data[$id]) ? $this->data[$id] : null`. */
  function Lookup(t: Table, id: int): (r: Option<Record>)
    ensures r.Some? <==> t.Some? && id in t.value
    ensures r.Some? ==> r.value == t.value[id]
  {
    if t.Some? && id in t.value then Some(t.value[id]) else None
  }

  /** `$this->data[$id] = $r`: a non-array becomes an array holding only that entry. */
  function Put(t: Table, id: int, r: Record): (t': Table)
    ensures Lookup(t', id) == Some(r)
    ensures forall other :: other != id ==> Lookup(t', other) == Lookup(t, other)
    ensures t'.Some? && t'.value.Keys == Entries(t).Keys + {id}
  {
    Some(Entries(t)[id := r])
  }

  /** `if (isset($this->data[$id])) unset($this->data[$id])`. */
  function Remove(t: Table, id: int): (t': Table)
    ensures Lookup(t', id).None?
    ensures forall other :: other != id ==> Lookup(t', other) == Lookup(t, other)
    ensures Lookup(t, id).None? ==> t' == t
  {
    if t.Some? && id in t.value then Some(t.value - {id}) else t
  }

  /** Every record is filed under its own user id. */
  predicate FiledByUserId(t: Table) {
    forall id :: id in Entries(t) ==> Entries(t)[id].UserId() == id
  }

  /** Filing a record under its own user id keeps every record filed under its own. */
  lemma PutKeepsFiled(t: Table, r: Record)
    requires FiledByUserId(t)
    ensures FiledByUserId(Put(t, r.UserId(), r))
  {
  }

  /** Removing an entry keeps every other record filed under its own user id. */
  lemma RemoveKeepsFiled(t: Table, id: int)
    requires FiledByUserId(t)
    ensures FiledByUserId(Remove(t, id))
  {
    var m := Entries(Remove(t, id));
    forall k | k in m ensures m[k].UserId() == k {
      assert k in Entries(t) && m[k] == Entries(t)[k];
    }
  }

  /**
   * `searchInObject(getData(), 'userId', $userId)`, taken as the entry under that id when
   * its record carries the id.
   */
  function Find(t: Table, userId: int): (r: Option<Record>)
    ensures r.Some? ==> r.value.UserId() == userId && r == Lookup(t, userId)
  {
    var hit := Lookup(t, userId);
    if hit.Some? && hit.value.UserId() == userId then hit else None
  }

  /**
   * With every record filed under its own user id, `Find` misses exactly when no record
   * in the array carries the id, as a search over all of them would.
   */
  lemma FindComplete(t: Table, userId: int)
    requires FiledByUserId(t)
    ensures Find(t, userId).None? <==> forall id :: id in Entries(t) ==> Entries(t)[id].UserId() != userId
  {
    if Find(t, userId).None? {
      forall id | id in Entries(t) ensures Entries(t)[id].UserId() != userId {
        assert Entries(t)[id].UserId() == id;
      }
    } else {
      assert userId in Entries(t) && Entries(t)[userId].UserId() == userId;
    }
  }

  class AuthenticatorPlugin {
    var data: Table

    constructor (data: Table)
      ensures this.data == data
    {
      this.data := data;
    }

    /** `init`: `$this->data` becomes the empty array unless it already is an array. */
    method Init()
      modifies this`data
      ensures data.Some?
      ensures old(data).Some? ==> data == old(data)
      ensures old(data).None? ==> data == Some(map[])
    {
      if data.None? {
        data := Some(map[]);
      }
    }

    /** `getDataForId($id)`. */
    function GetDataForId(id: int): (r: Option<Record>)
      reads this
      ensures r == Lookup(data, id)
    {
      Lookup(data, id)
    }

    /** `getData()`: the whole array, a non-array cast to the empty one. */
    function GetData(): (m: map<int, Record>)
      reads this
      ensures forall id :: id in m <==> GetDataForId(id).Some?
      ensures forall id :: id in m ==> GetDataForId(id) == Some(m[id])
    {
      Entries(data)
    }

    /** `setDataForId($id, $data)`: overwrites the entry under the id. */
    method SetDataForId(id: int, d: AuthenticatorData)
      modifies this`data
      ensures data == Put(old(data), id, d.Snapshot())
    {
      data := Put(data, id, d.Snapshot());
    }

    /** `deleteDataForId($id)`: drops the entry when there is one. */
    method DeleteDataForId(id: int)
      modifies this`data
      ensures data == Remove(old(data), id)
    {
      data := Remove(data, id);
    }

    /**
     * `checkLogin` on `login.finish`: the signed-in user's entry with 2FA on clears both
     * flags and stores the redirect to the second-factor page; otherwise both flags are set.
     */
    method CheckLogin(session: Session, sessionUserId: int, callable: Option<string -> string>)
      modifies session`twoFApass, session`authCompleted, session`redirect
      ensures Plugin.RequiresSecondFactor(GetDataForId(sessionUserId)) ==>
        !session.twoFApass && !session.authCompleted
        && session.redirect == Some(Plugin.LoginRedirect(callable))
      ensures !Plugin.RequiresSecondFactor(GetDataForId(sessionUserId)) ==>
        session.twoFApass && session.authCompleted && session.redirect == old(session.redirect)
    {
      var data := GetDataForId(sessionUserId);
      if data.Some? && data.value.IsTwofaEnabled() {
        session.SetFlags(false);
        session.SetRedirect(Plugin.LoginRedirect(callable));
      } else {
        session.SetFlags(true);
      }
    }
  }
}
