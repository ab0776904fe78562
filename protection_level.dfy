/** Nested protection-level control (main.py): an urgent booking needs any
    seat; a leisure booking may not eat into the seats protected for urgent
    demand. Any other class label falls through and yields `None`. */
module ProtectionLevel {
  import opened Wrappers

  /** `should_accept_booking` of main.py; `None` is the implicit `return None`.
      Only the two known labels get an answer, and a known class is accepted
      exactly when more seats are left than its threshold: none for urgent,
      the protection level for leisure. */
  function ShouldAcceptBooking(customerClass: string, seatsSold: int, capacity: int, protectionLevelUrgent: int): (r: Option<bool>)
    ensures r.None? <==> customerClass != "Urgent" && customerClass != "Leisure"
    ensures r.Some? ==> (r.value <==> capacity - seatsSold > (if customerClass == "Urgent" then 0 else protectionLevelUrgent))
  {
    var seatsAvailable := capacity - seatsSold;
    if customerClass == "Urgent" then
      Some(seatsAvailable > 0)
    else if customerClass == "Leisure" then
      Some(seatsAvailable > protectionLevelUrgent)
    else
      None
  }

  /** Urgent: accepted exactly when a seat is physically left. */
  lemma UrgentRule(seatsSold: int, capacity: int, protectionLevelUrgent: int)
    ensures ShouldAcceptBooking("Urgent", seatsSold, capacity, protectionLevelUrgent) == Some(capacity - seatsSold > 0)
  {
  }

  /** Leisure: accepted exactly when more seats are left than are protected. */
  lemma LeisureRule(seatsSold: int, capacity: int, protectionLevelUrgent: int)
    ensures ShouldAcceptBooking("Leisure", seatsSold, capacity, protectionLevelUrgent) == Some(capacity - seatsSold > protectionLevelUrgent)
  {
  }

  /** The rule is nested: with a non-negative protection level, a state that
      admits a leisure booking admits an urgent one. */
  lemma LeisureAcceptanceImpliesUrgent(seatsSold: int, capacity: int, protectionLevelUrgent: int)
    requires protectionLevelUrgent >= 0
    requires ShouldAcceptBooking("Leisure", seatsSold, capacity, protectionLevelUrgent) == Some(true)
    ensures ShouldAcceptBooking("Urgent", seatsSold, capacity, protectionLevelUrgent) == Some(true)
  {
  }

  /** Protecting nothing makes the two classes indistinguishable. */
  lemma ZeroProtectionCoincides(seatsSold: int, capacity: int)
    ensures ShouldAcceptBooking("Leisure", seatsSold, capacity, 0) == ShouldAcceptBooking("Urgent", seatsSold, capacity, 0)
  {
  }

  /** Selling more seats, or protecting more of them, never turns a refusal
      into an acceptance. */
  lemma AcceptanceMonotone(customerClass: string, sold1: int, sold2: int, capacity: int, level1: int, level2: int)
    requires sold1 <= sold2 && level1 <= level2
    requires ShouldAcceptBooking(customerClass, sold2, capacity, level2) == Some(true)
    ensures ShouldAcceptBooking(customerClass, sold1, capacity, level1) == Some(true)
  {
  }
}
