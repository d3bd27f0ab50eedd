/**
 Resource leases: one row per resource, taken without waiting, released by token. A token is never
 issued twice, so a release can only remove the lease it belongs to.
 */
module Leases {
  import opened Common

  datatype Key = Key(resourceType: string, resourceId: string)

  datatype Lease = Lease(token: nat, owner: string, expiresAt: int)

  datatype LeaseError = LeaseConflict | InvalidRequest

  type Rows = map<Key, Lease>

  const MAX_LEASE_SECONDS := 86_400

  predicate ValidRequest(key: Key, owner: string, seconds: int)
  {
    key.resourceType != "" && key.resourceId != "" && owner != "" && 1 <= seconds <= MAX_LEASE_SECONDS
  }

  predicate Active(rows: Rows, key: Key, now: int)
  {
    key in rows && rows[key].expiresAt > now
  }

  /** rows' is rows after workers other than me have acted, up to some instant: a row they wrote is theirs and
      carries a token issued meanwhile, and a row of mine that has not expired by then is untouched. */
  ghost predicate ChangedByOthers(me: string, until: int, rows: Rows, nextToken: nat, rows': Rows, nextToken': nat)
  {
    && nextToken <= nextToken'
    && (forall k :: k in rows' ==>
          (k in rows && rows'[k] == rows[k]) || (nextToken <= rows'[k].token < nextToken' && rows'[k].owner != me))
    && (forall k :: k in rows && rows[k].owner == me && rows[k].expiresAt > until ==> k in rows' && rows'[k] == rows[k])
  }

  class LeaseTable {
    var rows: Rows
    var nextToken: nat

    ghost predicate Valid()
      reads this
    {
      && (forall k :: k in rows ==> rows[k].token < nextToken)
      && (forall k, l :: k in rows && l in rows && k != l ==> rows[k].token != rows[l].token)
    }

    /** Takes the resource unless somebody holds an unexpired lease on it. */
    method Acquire(key: Key, owner: string, seconds: int, now: int) returns (r: Result<Lease, LeaseError>)
      requires Valid()
      modifies this
      ensures Valid()
      ensures r == if !ValidRequest(key, owner, seconds) then Err(InvalidRequest)
                   else if old(Active(rows, key, now)) then Err(LeaseConflict)
                   else Ok(Lease(old(nextToken), owner, now + seconds))
      ensures r.Ok? ==> rows == old(rows)[key := r.value] && nextToken == old(nextToken) + 1
      ensures r.Err? ==> rows == old(rows) && nextToken == old(nextToken)
    {
      if !ValidRequest(key, owner, seconds) {
        return Err(InvalidRequest);
      }
      if Active(rows, key, now) {
        return Err(LeaseConflict);
      }
      var lease := Lease(nextToken, owner, now + seconds);
      nextToken := nextToken + 1;
      rows := rows[key := lease];
      return Ok(lease);
    }

    /** Removes the lease with this token; a missing row is no error, somebody else's lease is one. */
    method Release(key: Key, token: nat) returns (r: Result<bool, LeaseError>)
      requires Valid()
      modifies this`rows
      ensures Valid()
      ensures r == if key !in old(rows) then Ok(false)
                   else if old(rows)[key].token != token then Err(LeaseConflict)
                   else Ok(true)
      ensures rows == if r == Ok(true) then old(rows) - {key} else old(rows)
    {
      if key !in rows {
        return Ok(false);
      }
      if rows[key].token != token {
        return Err(LeaseConflict);
      }
      rows := rows - {key};
      return Ok(true);
    }

    /** Whatever other workers do to the table while I am busy elsewhere. The body stands for none of it in
        particular; callers know only what the contract leaves open. */
    method OthersAct(me: string, until: int)
      requires Valid()
      modifies this
      ensures Valid() && ChangedByOthers(me, until, old(rows), old(nextToken), rows, nextToken)
    {
    }
  }
}
