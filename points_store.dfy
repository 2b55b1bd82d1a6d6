/**
 * The Bhai Points balance: read from a cookie when the store is created,
 * lowered by a guarded `spend`, raised by `earn`, and set by `reset`;
 * each change is written back to the cookie.
 */
module PointsStore {
  import opened Wrappers

  const DefaultPoints: real := 100.0

  /**
   * The `bhai_points` cookie. `Raw` is any text, with `number` standing
   * for `Number(text)` when that is finite; `Persisted` is what the
   * store itself writes, `String(value)`, which reads back as `value`.
   */
  datatype Cookie = Absent | Raw(text: string, number: Option<real>) | Persisted(value: real)

  /** The balance a fresh store starts from: the cookie's finite number, or 100. */
  function InitialPoints(c: Cookie): (p: real)
    ensures c == Absent ==> p == DefaultPoints
    ensures c.Raw? && (c.text == "" || c.number == None) ==> p == DefaultPoints
    ensures c.Raw? && c.text != "" && c.number.Some? ==> p == c.number.value
    ensures c.Persisted? ==> p == c.value
  {
    match c
    case Absent => DefaultPoints
    case Raw(text, number) => if text != "" && number.Some? then number.value else DefaultPoints
    case Persisted(value) => value
  }

  function Max(a: real, b: real): real {
    if a >= b then a else b
  }

  class Store {
    var points: real
    var cookie: Cookie

    /** Reloading the page would restore the current balance. */
    predicate Restorable()
      reads this
    {
      InitialPoints(cookie) == points
    }

    constructor(c: Cookie)
      ensures cookie == c && points == InitialPoints(c)
      ensures Restorable()
    {
      cookie := c;
      points := InitialPoints(c);
    }

    /** Spend `amount` if the balance covers it; a non-positive amount costs nothing. */
    method Spend(amount: real) returns (ok: bool)
      modifies this
      requires Restorable()
      ensures Restorable()
      ensures ok <==> amount <= 0.0 || old(points) >= amount
      ensures amount <= 0.0 || old(points) < amount ==> points == old(points) && cookie == old(cookie)
      ensures amount > 0.0 && old(points) >= amount ==> points == old(points) - amount && cookie == Persisted(points)
      ensures old(points) >= 0.0 ==> points >= 0.0
    {
      var current := points;
      if amount <= 0.0 {
        return true;
      }
      if current < amount {
        return false;
      }
      var next := current - amount;
      cookie := Persisted(next);
      points := next;
      return true;
    }

    /** Add a non-negative amount; a negative one adds nothing. */
    method Earn(amount: real)
      modifies this
      requires Restorable()
      ensures Restorable()
      ensures points == old(points) + Max(0.0, amount) && cookie == Persisted(points)
      ensures points >= old(points)
      ensures amount <= 0.0 ==> points == old(points)
    {
      var current := points;
      var next := current + Max(0.0, amount);
      cookie := Persisted(next);
      points := next;
    }

    /** Set the balance to `next`, or drop the cookie and go back to 100. */
    method Reset(next: Option<real>)
      modifies this
      ensures Restorable()
      ensures next.Some? ==> points == next.value && cookie == Persisted(next.value)
      ensures next.None? ==> points == DefaultPoints && cookie == Absent
    {
      if next.Some? {
        cookie := Persisted(next.value);
        points := next.value;
        return;
      }
      cookie := Absent;
      points := DefaultPoints;
    }
  }

  /** A refused spend followed by an earn of the same amount: nothing lost, the amount gained. */
  method SpendEarnScenario() returns (refused: bool, after: real)
    ensures refused && after == 130.0
  {
    var s := new Store(Absent);
    var ok := s.Spend(150.0);
    refused := !ok;
    s.Earn(30.0);
    ok := s.Spend(-5.0);
    after := s.points;
  }
}
