/** The notification subject: an ordered list of observers that are told the
    name of every product the shop announces. An observer's `update` only
    prints a greeting; here each call is recorded as one entry of the
    subject's ghost delivery log. Observers are compared by identity. */
module Notification {

  class UserObserver {
    const name: string

    constructor (name: string)
      ensures this.name == name
    {
      this.name := name;
    }
  }

  /** One call of an observer's update with a product name. */
  type Delivery = (UserObserver, string)

  /** The deliveries that announcing `productName` to `observers` makes: one
      per list entry, in list order, each carrying the same name. */
  function Broadcast(observers: seq<UserObserver>, productName: string): (log: seq<Delivery>)
    ensures |log| == |observers|
    ensures forall i :: 0 <= i < |observers| ==> log[i] == (observers[i], productName)
  {
    if observers == [] then [] else [(observers[0], productName)] + Broadcast(observers[1..], productName)
  }

  /** Announcing to a concatenated list makes the deliveries of each part in turn. */
  lemma BroadcastAppend(a: seq<UserObserver>, b: seq<UserObserver>, productName: string)
    ensures Broadcast(a + b, productName) == Broadcast(a, productName) + Broadcast(b, productName)
  {
  }

  /** How many of the deliveries in `log` went to observer `o`. */
  function Received(log: seq<Delivery>, o: UserObserver): nat
  {
    if log == [] then 0
    else (if log[0].0 == o then 1 else 0) + Received(log[1..], o)
  }

  /** An observer receives one delivery per occurrence of it in the list:
      none when it is absent. */
  lemma {:induction false} ReceivedBroadcast(observers: seq<UserObserver>, productName: string, o: UserObserver)
    ensures Received(Broadcast(observers, productName), o) == multiset(observers)[o]
  {
    if observers != [] {
      assert observers == [observers[0]] + observers[1..];
      assert Broadcast(observers, productName)[1..] == Broadcast(observers[1..], productName);
      ReceivedBroadcast(observers[1..], productName, o);
    }
  }

  /** Detaching an observer that was attached once means a later
      announcement makes no delivery to it, and one fewer in all. */
  lemma DetachedReceivesNone(observers: seq<UserObserver>, o: UserObserver, productName: string)
    requires multiset(observers)[o] == 1
    ensures Received(Broadcast(RemoveFirst(observers, o), productName), o) == 0
    ensures |Broadcast(RemoveFirst(observers, o), productName)| == |observers| - 1
  {
    ReceivedBroadcast(RemoveFirst(observers, o), productName, o);
  }

  /** The list with its first occurrence of `x` taken out; the list itself
      when `x` does not occur. */
  function RemoveFirst<T(==)>(s: seq<T>, x: T): (r: seq<T>)
    ensures x !in s ==> r == s
    ensures x in s ==> |r| == |s| - 1
    ensures multiset(r) == multiset(s) - multiset{x}
  {
    if s == [] then []
    else
      assert s == [s[0]] + s[1..];
      if s[0] == x then s[1..] else [s[0]] + RemoveFirst(s[1..], x)
  }

  /** Where `x` first occurs at `i`, removing it keeps what comes before and
      after that position, in order. */
  lemma {:induction false} RemoveFirstAt<T>(s: seq<T>, x: T, i: nat)
    requires i < |s| && s[i] == x && x !in s[..i]
    ensures RemoveFirst(s, x) == s[..i] + s[i + 1..]
  {
    if i > 0 {
      assert s[0] in s[..i];
      assert s[1..][..i - 1] == s[1..i];
      assert x !in s[1..][..i - 1];
      RemoveFirstAt(s[1..], x, i - 1);
      assert [s[0]] + s[1..][..i - 1] == s[..i];
    }
  }

  class ShopSubject {
    var observers: seq<UserObserver>
    var products: seq<string>
    ghost var deliveries: seq<Delivery>

    constructor ()
      ensures observers == [] && products == [] && deliveries == []
    {
      observers := [];
      products := [];
      deliveries := [];
    }

    /** Subscribes `o` at the end of the list, with no duplicate check. */
    method Attach(o: UserObserver)
      modifies this`observers
      ensures observers == old(observers) + [o]
    {
      observers := observers + [o];
    }

    /** Unsubscribes the first occurrence of `o`; no change if it is absent. */
    method Detach(o: UserObserver)
      modifies this`observers
      ensures observers == RemoveFirst(old(observers), o)
    {
      observers := RemoveFirst(observers, o);
    }

    /** Tells every observer, in list order, the name of a product. */
    method Notify(productName: string)
      modifies this`deliveries
      ensures deliveries == old(deliveries) + Broadcast(observers, productName)
    {
      var i := 0;
      while i < |observers|
        invariant 0 <= i <= |observers|
        invariant deliveries == old(deliveries) + Broadcast(observers[..i], productName)
      {
        BroadcastAppend(observers[..i], [observers[i]], productName);
        assert observers[..i + 1] == observers[..i] + [observers[i]];
        deliveries := deliveries + [(observers[i], productName)];
        i := i + 1;
      }
      assert observers[..i] == observers;
    }

    /** Records a product name and then announces it. */
    method AddProduct(productName: string)
      modifies this`products, this`deliveries
      ensures products == old(products) + [productName]
      ensures deliveries == old(deliveries) + Broadcast(observers, productName)
    {
      products := products + [productName];
      Notify(productName);
    }

    function GetProducts(): seq<string>
      reads this
    {
      products
    }
  }

  /** Two observers attached in turn each receive an announced name exactly
      once, in the order they were attached. */
  method AnnounceScenario(productName: string) returns (subject: ShopSubject, u1: UserObserver, u2: UserObserver)
    ensures fresh(u1) && fresh(u2) && u1 != u2
    ensures u1.name == "Usuario1" && u2.name == "Usuario2"
    ensures subject.deliveries == [(u1, productName), (u2, productName)]
  {
    subject := new ShopSubject();
    u1 := new UserObserver("Usuario1");
    u2 := new UserObserver("Usuario2");
    subject.Attach(u1);
    subject.Attach(u2);
    subject.AddProduct(productName);
  }

  /** An observer attached once and then detached receives nothing further,
      while the others still receive one delivery each. */
  method DetachScenario(productName: string) returns (subject: ShopSubject, u1: UserObserver, u2: UserObserver)
    ensures fresh(u1) && fresh(u2) && u1 != u2
    ensures u1.name == "Usuario1" && u2.name == "Usuario2"
    ensures subject.observers == [u2]
    ensures subject.deliveries == [(u2, productName)]
  {
    subject := new ShopSubject();
    u1 := new UserObserver("Usuario1");
    u2 := new UserObserver("Usuario2");
    subject.Attach(u1);
    subject.Attach(u2);
    subject.Detach(u1);
    subject.Notify(productName);
  }
}
