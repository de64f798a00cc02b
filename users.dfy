/**
 * The `users` table and the entitlement rules applied to it: the idempotent
 * upsert on first contact, the lazy expiry check, activation for a number of
 * fixed 30-day months and cancellation.
 *
 * Timestamps are integer seconds on one clock, which stands for both Python's
 * `datetime.now()` and the database's `CURRENT_TIMESTAMP`. Every operation
 * opens its own database connection; `up` says whether that connection
 * succeeded. When it does not, the operation reports failure and changes
 * nothing.
 */
module Users {
  import opened Wrappers

  const SecondsPerDay: int := 86400
  const DaysPerMonth: int := 30

  /** One row of the table; the key `user_id` is the key of the map. */
  datatype UserRecord = UserRecord(
    username: Option<string>,
    firstName: Option<string>,
    isPremium: bool,
    subscriptionUntil: Option<int>,
    stripeCustomerId: Option<string>,
    createdAt: int,
    lastActivity: int)

  type Table = map<int, UserRecord>

  /** Python truthiness of an optional string: `None` and `""` are false. */
  predicate Truthy(s: Option<string>) {
    s.Some? && s.value != ""
  }

  /**
   * `datetime.now() + timedelta(days=30 * months)`: every month is thirty
   * days, and the expiry lies after `now` exactly for a positive count.
   */
  function ExpiryAfter(now: int, months: int): (r: int)
    ensures r > now <==> months > 0
    ensures r == now <==> months == 0
  {
    now + DaysPerMonth * months * SecondsPerDay
  }

  /** Two periods in succession end where one period of their combined length ends. */
  lemma ExpiryAdditive(now: int, months: int, more: int)
    ensures ExpiryAfter(ExpiryAfter(now, months), more) == ExpiryAfter(now, months + more)
  {
  }

  /** The stored expiry is set and the clock is strictly past it. */
  predicate Expired(r: UserRecord, now: int) {
    r.subscriptionUntil.Some? && now > r.subscriptionUntil.value
  }

  /** The informational columns agree. */
  predicate SameProfile(a: UserRecord, b: UserRecord) {
    a.username == b.username && a.firstName == b.firstName
    && a.createdAt == b.createdAt && a.lastActivity == b.lastActivity
  }

  /** The billing columns other than the flag agree. */
  predicate SameBilling(a: UserRecord, b: UserRecord) {
    a.subscriptionUntil == b.subscriptionUntil && a.stripeCustomerId == b.stripeCustomerId
  }

  /** Every row except the one keyed `id` is as it was, and no other key came or went. */
  ghost predicate OthersUnchanged(before: Table, after: Table, id: int) {
    forall k :: k != id ==> (k in before <==> k in after) && (k in before ==> after[k] == before[k])
  }

  /**
   * The invariant the table is meant to keep: a set flag comes with an expiry,
   * and a stored customer id is never the empty string. It is a property the
   * operations preserve, not something the entitlement check relies on.
   */
  predicate WellFormed(users: Table) {
    forall k :: k in users ==>
      (users[k].isPremium ==> users[k].subscriptionUntil.Some?) && users[k].stripeCustomerId != Some("")
  }

  /** `create_or_update_user`: insert a non-premium row, or refresh `last_activity` only. */
  function Upserted(users: Table, id: int, username: Option<string>, firstName: Option<string>, now: int): (r: Table)
    ensures r.Keys == users.Keys + {id}
    ensures OthersUnchanged(users, r, id)
    ensures id in users ==>
      && r[id].lastActivity == now
      && SameBilling(r[id], users[id]) && r[id].isPremium == users[id].isPremium
      && r[id].username == users[id].username && r[id].firstName == users[id].firstName
      && r[id].createdAt == users[id].createdAt
    ensures id !in users ==>
      && !r[id].isPremium && r[id].subscriptionUntil == None && r[id].stripeCustomerId == None
      && r[id].username == username && r[id].firstName == firstName
      && r[id].createdAt == now && r[id].lastActivity == now
  {
    if id in users then users[id := users[id].(lastActivity := now)]
    else users[id := UserRecord(username, firstName, false, None, None, now, now)]
  }

  /**
   * `activate_premium` with a computed expiry: an unknown user is left alone;
   * a known one becomes premium until `expiry`, whatever expiry it had before,
   * and takes `customer` as its customer id only when `customer` is truthy.
   */
  function Activated(users: Table, id: int, expiry: int, customer: Option<string>): (r: Table)
    ensures r.Keys == users.Keys
    ensures OthersUnchanged(users, r, id)
    ensures id !in users ==> r == users
    ensures id in users ==>
      && r[id].isPremium && r[id].subscriptionUntil == Some(expiry)
      && r[id].stripeCustomerId == (if Truthy(customer) then customer else users[id].stripeCustomerId)
      && SameProfile(r[id], users[id])
  {
    if id !in users then users
    else
      var old_ := users[id];
      var cid := if Truthy(customer) then customer else old_.stripeCustomerId;
      users[id := old_.(isPremium := true, subscriptionUntil := Some(expiry), stripeCustomerId := cid)]
  }

  /** `deactivate_premium`: clears the flag of a known user and nothing else. */
  function Deactivated(users: Table, id: int): (r: Table)
    ensures r.Keys == users.Keys
    ensures OthersUnchanged(users, r, id)
    ensures id in users ==> !r[id].isPremium && SameBilling(r[id], users[id]) && SameProfile(r[id], users[id])
  {
    if id in users then users[id := users[id].(isPremium := false)] else users
  }

  /**
   * `is_premium`: the answer and the table afterwards. A missing row, a clear
   * flag or a failed connection answer false. A set flag answers true unless
   * the clock is strictly past a stored expiry, in which case the flag is
   * cleared as a side effect. A set flag without an expiry answers true.
   */
  function PremiumCheck(users: Table, id: int, now: int, up: bool): (r: (bool, Table))
    ensures r.0 <==> up && id in users && users[id].isPremium && !Expired(users[id], now)
    ensures r.1.Keys == users.Keys && OthersUnchanged(users, r.1, id)
    ensures id in users ==>
      && SameBilling(r.1[id], users[id]) && SameProfile(r.1[id], users[id])
      && (r.1[id].isPremium <==> users[id].isPremium && !(up && Expired(users[id], now)))
  {
    if !up || id !in users || !users[id].isPremium then (false, users)
    else if Expired(users[id], now) then (false, Deactivated(users, id))
    else (true, users)
  }

  /** A user who never had the flag, or has no row, is not premium, and the check changes nothing. */
  lemma NeverPremiumIsFree(users: Table, id: int, now: int, up: bool)
    requires id !in users || !users[id].isPremium
    ensures PremiumCheck(users, id, now, up) == (false, users)
  {
  }

  /**
   * After an activation at `t0` for `months` months, the user reads as premium
   * at `t` exactly when `t` is not past the expiry: still premium at the expiry
   * second itself, no longer one second later.
   */
  lemma PremiumUntilExpiry(users: Table, id: int, t0: int, months: int, customer: Option<string>, t: int)
    requires id in users
    ensures PremiumCheck(Activated(users, id, ExpiryAfter(t0, months), customer), id, t, true).0
            <==> t <= ExpiryAfter(t0, months)
  {
  }

  /**
   * The lazy expiry check is idempotent: a second check at the same instant
   * gives the same answer and changes nothing more.
   */
  lemma PremiumCheckIdempotent(users: Table, id: int, now: int, up: bool)
    ensures var (p, after) := PremiumCheck(users, id, now, up);
            PremiumCheck(after, id, now, up) == (p, after)
  {
  }

  /**
   * A second activation overwrites the expiry of the first instead of adding
   * to it; only the customer id of the first survives, and only when the
   * second one carries none.
   */
  lemma ActivationOverwrites(users: Table, id: int, e1: int, c1: Option<string>, e2: int, c2: Option<string>)
    ensures Activated(Activated(users, id, e1, c1), id, e2, c2)
            == Activated(users, id, e2, if Truthy(c2) then c2 else c1)
  {
  }

  /** Re-activating ten days into a month ends thirty days after the second activation. */
  lemma RenewalTenDaysInDiscardsRemainder(users: Table, id: int, t: int)
    requires id in users
    ensures var later := t + 10 * SecondsPerDay;
            Activated(Activated(users, id, ExpiryAfter(t, 1), None), id, ExpiryAfter(later, 1), None)[id].subscriptionUntil
            == Some(later + 30 * SecondsPerDay)
  {
  }

  /** Deactivating twice is deactivating once. */
  lemma DeactivateIdempotent(users: Table, id: int)
    ensures Deactivated(Deactivated(users, id), id) == Deactivated(users, id)
  {
  }

  /** A second upsert of a user only moves `last_activity`; the name given the second time is ignored. */
  lemma UpsertTwice(users: Table, id: int, u1: Option<string>, f1: Option<string>, t1: int,
                    u2: Option<string>, f2: Option<string>, t2: int)
    ensures var once := Upserted(users, id, u1, f1, t1);
            Upserted(once, id, u2, f2, t2) == once[id := once[id].(lastActivity := t2)]
  {
  }

  /** Every operation on the table keeps it well formed. */
  lemma OperationsPreserveWellFormed(users: Table, id: int, username: Option<string>, firstName: Option<string>,
                                     now: int, expiry: int, customer: Option<string>, up: bool)
    ensures WellFormed(users) ==> WellFormed(Upserted(users, id, username, firstName, now))
    ensures WellFormed(users) ==> WellFormed(Activated(users, id, expiry, customer))
    ensures WellFormed(users) ==> WellFormed(Deactivated(users, id))
    ensures WellFormed(users) ==> WellFormed(PremiumCheck(users, id, now, up).1)
  {
  }

  /** `u` is a row whose customer id equals `customer`; SQL's `= NULL` matches no row. */
  predicate Resolves(users: Table, customer: Option<string>, u: int) {
    customer.Some? && u in users && users[u].stripeCustomerId == customer
  }

  /**
   * The customer id outlives cancellation, expiry, renewal and later upserts,
   * so a renewal event can still find a user who was marked inactive.
   */
  lemma CustomerIdSurvives(users: Table, customer: Option<string>, u: int, v: int,
                           username: Option<string>, firstName: Option<string>, now: int, expiry: int, up: bool)
    requires Resolves(users, customer, u)
    ensures Resolves(Deactivated(users, v), customer, u)
    ensures Resolves(PremiumCheck(users, v, now, up).1, customer, u)
    ensures Resolves(Activated(users, v, expiry, None), customer, u)
    ensures Resolves(Upserted(users, v, username, firstName, now), customer, u)
  {
  }

  /** The `users` table of one database, updated in place by the bot and the webhook. */
  class UserStore {
    var users: Table

    constructor ()
      ensures users == map[]
    {
      users := map[];
    }

    /** `create_or_update_user` */
    method CreateOrUpdateUser(id: int, username: Option<string>, firstName: Option<string>, now: int, up: bool)
      returns (ok: bool)
      modifies this
      ensures ok == up
      ensures users == if up then Upserted(old(users), id, username, firstName, now) else old(users)
    {
      if !up {
        return false;
      }
      if id in users {
        users := users[id := users[id].(lastActivity := now)];
      } else {
        users := users[id := UserRecord(username, firstName, false, None, None, now, now)];
      }
      ok := true;
    }

    /** `get_user_data`: the row, or `None` when it is missing or the connection failed. */
    method GetUserData(id: int, up: bool) returns (r: Option<UserRecord>)
      ensures r.Some? <==> up && id in users
      ensures r.Some? ==> r.value == users[id]
    {
      if up && id in users {
        r := Some(users[id]);
      } else {
        r := None;
      }
    }

    /** `is_premium`, including the lazy clearing of an expired flag. */
    method IsPremium(id: int, now: int, up: bool) returns (premium: bool)
      modifies this
      ensures (premium, users) == PremiumCheck(old(users), id, now, up)
    {
      var user := GetUserData(id, up);
      if user.None? || !user.value.isPremium {
        return false;
      }
      if user.value.subscriptionUntil.Some? && now > user.value.subscriptionUntil.value {
        var _ := DeactivatePremium(id, up);
        return false;
      }
      premium := true;
    }

    /** `activate_premium`: premium for `months` fixed 30-day months from `now`. */
    method ActivatePremium(id: int, months: int, customer: Option<string>, now: int, up: bool) returns (ok: bool)
      modifies this
      ensures ok == up
      ensures users == if up then Activated(old(users), id, ExpiryAfter(now, months), customer) else old(users)
    {
      if !up {
        return false;
      }
      var expiry := now + DaysPerMonth * months * SecondsPerDay;
      if id in users {
        if Truthy(customer) {
          users := users[id := users[id].(isPremium := true, subscriptionUntil := Some(expiry), stripeCustomerId := customer)];
        } else {
          users := users[id := users[id].(isPremium := true, subscriptionUntil := Some(expiry))];
        }
      }
      ok := true;
    }

    /** `deactivate_premium` */
    method DeactivatePremium(id: int, up: bool) returns (ok: bool)
      modifies this
      ensures ok == up
      ensures users == if up then Deactivated(old(users), id) else old(users)
    {
      if !up {
        return false;
      }
      if id in users {
        users := users[id := users[id].(isPremium := false)];
      }
      ok := true;
    }

    /**
     * `SELECT user_id FROM users WHERE stripe_customer_id = %s` followed by
     * `fetchone()`: some matching user when there is one. Which one, when
     * several rows share the id, is the database's choice.
     */
    method FindByCustomer(customer: Option<string>, up: bool) returns (r: Option<int>)
      ensures r.Some? ==> up && Resolves(users, customer, r.value)
      ensures r.None? && up ==> forall u :: !Resolves(users, customer, u)
    {
      if up && customer.Some? && exists u :: u in users && users[u].stripeCustomerId == customer {
        var u :| u in users && users[u].stripeCustomerId == customer;
        r := Some(u);
      } else {
        r := None;
      }
    }
  }
}
