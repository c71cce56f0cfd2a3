/** The create-support-ticket tool (`lib/ai/tools/create-support-ticket.ts`):
    an in-memory idempotency cache that returns the same ticket for a repeated
    request within two minutes, a periodic sweep of old entries, and the
    random ticket id. */
module SupportTicketTool {
  import opened Base
  import opened Strings
  import opened Seqs

  const DuplicateWindowMs := 120000
  const SweepAgeMs := 300000
  const SupportEmail := "support@techgearsnowboards.com"
  const SupportPhone := "1-800-SHRED-IT"
  const BusinessHours := "Monday-Friday 9AM-6PM EST, Saturday 10AM-4PM EST"

  // ---------------------------------------------------------------------
  // Ticket ids
  // ---------------------------------------------------------------------

  /** The id alphabet: no `0`, `O`, `1` or `I` (it does contain `L`). */
  const Alphabet := "ABCDEFGHJKLMNPQRSTUVWXYZ23456789"

  /** An upper-case letter other than `I` and `O`, or a digit from 2 to 9. */
  predicate Unambiguous(c: char) {
    ('A' <= c <= 'Z' && c != 'I' && c != 'O') || ('2' <= c <= '9')
  }

  lemma AlphabetShape()
    ensures |Alphabet| == 32
    ensures forall i :: 0 <= i < |Alphabet| ==> Unambiguous(Alphabet[i])
    ensures '0' !in Alphabet && 'O' !in Alphabet && '1' !in Alphabet && 'I' !in Alphabet
    ensures 'L' in Alphabet
  {
    assert Alphabet[10] == 'L';
  }

  /** A random draw in `[0, 1)` picks `floor(draw * 32)`. */
  predicate IsDraw(x: real) {
    0.0 <= x < 1.0
  }

  function Pick(x: real): (k: nat)
    requires IsDraw(x)
    ensures k < |Alphabet|
  {
    var k := (x * 32.0).Floor;
    assert k as real <= x * 32.0 < 32.0;
    k
  }

  /** The id the eight draws produce. */
  function TicketIdOf(draws: seq<real>): (id: string)
    requires |draws| == 8 && forall i :: 0 <= i < 8 ==> IsDraw(draws[i])
    ensures |id| == 12 && id[..4] == "TKT-"
    ensures forall i :: 4 <= i < 12 ==> id[i] in Alphabet
  {
    "TKT-" + Letters(draws)
  }

  /** The letter each draw picks. */
  function Letters(draws: seq<real>): (r: string)
    requires forall i :: 0 <= i < |draws| ==> IsDraw(draws[i])
    ensures |r| == |draws|
    ensures forall i :: 0 <= i < |draws| ==> r[i] == Alphabet[Pick(draws[i])]
  {
    seq(|draws|, i requires 0 <= i < |draws| => Alphabet[Pick(draws[i])])
  }

  /** `generateTicketId`, given the eight values `Math.random()` returns. */
  method GenerateTicketId(draws: seq<real>) returns (id: string)
    requires |draws| == 8 && forall i :: 0 <= i < 8 ==> IsDraw(draws[i])
    ensures id == TicketIdOf(draws)
  {
    id := "TKT-";
    for i := 0 to 8
      invariant id == "TKT-" + Letters(draws[..i])
    {
      id := id + [Alphabet[Pick(draws[i])]];
    }
  }

  /** Every id of the format can be drawn. */
  lemma {:induction false} EveryIdReachable(s: string)
    requires |s| == 8 && forall i :: 0 <= i < 8 ==> s[i] in Alphabet
    ensures exists draws :: |draws| == 8 && (forall i :: 0 <= i < 8 ==> IsDraw(draws[i])) && TicketIdOf(draws) == "TKT-" + s
  {
    var ks := seq(8, i requires 0 <= i < 8 => IndexIn(Alphabet, s[i]));
    var draws := seq(8, i requires 0 <= i < 8 => DrawFor(ks[i]));
    forall i | 0 <= i < 8 ensures IsDraw(draws[i]) && Alphabet[Pick(draws[i])] == s[i] {
      PickDrawFor(ks[i]);
    }
    assert Letters(draws) == s;
    assert TicketIdOf(draws) == "TKT-" + s;
  }

  /** The draw that lands on letter `k`. */
  function DrawFor(k: nat): real {
    k as real / 32.0
  }

  lemma PickDrawFor(k: nat)
    requires k < 32
    ensures IsDraw(DrawFor(k)) && Pick(DrawFor(k)) == k
  {
    assert DrawFor(k) * 32.0 == k as real;
  }

  function IndexIn(s: string, c: char): (k: nat)
    requires c in s
    ensures k < |s| && s[k] == c
  {
    IndexOfChar(s, c)
  }

  // ---------------------------------------------------------------------
  // Response times
  // ---------------------------------------------------------------------

  datatype Priority = Low | Medium | High | Urgent

  /** `getResponseTime`. */
  function ResponseTime(p: Priority): string {
    match p
    case Urgent => "within 2 hours"
    case High => "within 4 hours"
    case Medium => "within 24 hours"
    case Low => "within 48 hours"
  }

  function ResponseHours(p: Priority): (h: nat)
    ensures ResponseTime(p) == "within " + NatToString(h) + " hours"
  {
    match p
    case Urgent => assert NatToString(2) == "2"; 2
    case High => assert NatToString(4) == "4"; 4
    case Medium => assert NatToString(24) == "24"; 24
    case Low => assert NatToString(48) == "48"; 48
  }

  function Rank(p: Priority): nat {
    match p
    case Low => 0
    case Medium => 1
    case High => 2
    case Urgent => 3
  }

  /** A more urgent ticket is promised a strictly shorter response. */
  lemma MoreUrgentAnsweredSooner(p: Priority, q: Priority)
    requires Rank(p) < Rank(q)
    ensures ResponseHours(q) < ResponseHours(p)
  {
  }

  // ---------------------------------------------------------------------
  // The idempotency cache
  // ---------------------------------------------------------------------

  datatype TicketInput = TicketInput(
    customerEmail: string,
    customerName: Option<string>,
    orderNumber: Option<string>,
    category: string,
    priority: Priority,
    subject: string,
    description: string)

  datatype TicketEntry = TicketEntry(ticketId: string, timestamp: int)

  /** `${email}:${orderNumber || "no-order"}:${subject.slice(0, 30)}`. */
  function IdempotencyKey(input: TicketInput): string {
    input.customerEmail + ":" + OrElse(input.orderNumber, "no-order") + ":" + Take(input.subject, 30)
  }

  /** With no `:` in the emails or order numbers, equal keys mean the same
      email, the same order part and the same leading 30 characters of the
      subject. */
  lemma IdempotencyKeyInjective(a: TicketInput, b: TicketInput)
    requires ':' !in a.customerEmail && ':' !in b.customerEmail
    requires ':' !in OrElse(a.orderNumber, "no-order") && ':' !in OrElse(b.orderNumber, "no-order")
    requires IdempotencyKey(a) == IdempotencyKey(b)
    ensures a.customerEmail == b.customerEmail
    ensures OrElse(a.orderNumber, "no-order") == OrElse(b.orderNumber, "no-order")
    ensures Take(a.subject, 30) == Take(b.subject, 30)
  {
    KeyParts(a.customerEmail, OrElse(a.orderNumber, "no-order"), Take(a.subject, 30));
    KeyParts(b.customerEmail, OrElse(b.orderNumber, "no-order"), Take(b.subject, 30));
  }

  lemma KeyParts(e: string, o: string, s: string)
    requires ':' !in e && ':' !in o
    ensures var k := e + ":" + o + ":" + s;
      && IndexOfChar(k, ':') == |e|
      && k[..|e|] == e
      && ':' in k[|e| + 1..] && IndexOfChar(k[|e| + 1..], ':') == |o|
      && k[|e| + 1..][..|o|] == o
      && k[|e| + 1..][|o| + 1..] == s
  {
    var k := e + ":" + o + ":" + s;
    assert k[..|e|] == e;
    assert k[|e|] == ':';
    var r := k[|e| + 1..];
    assert r == o + ":" + s;
    assert r[..|o|] == o;
    assert r[|o|] == ':';
    assert r[|o| + 1..] == s;
  }

  /** The ticket a cached entry still answers for at `now`, if any. */
  function Recall(entries: map<string, TicketEntry>, key: string, now: int): (r: Option<string>)
    ensures r.Some? <==> key in entries && now - entries[key].timestamp < DuplicateWindowMs
    ensures r.Some? ==> r.value == entries[key].ticketId
  {
    if key in entries && now - entries[key].timestamp < DuplicateWindowMs then Some(entries[key].ticketId)
    else None
  }

  /** The entries the sweep at `now` keeps. */
  function Swept(entries: map<string, TicketEntry>, now: int): (r: map<string, TicketEntry>)
    ensures forall k :: k in r <==> k in entries && entries[k].timestamp >= now - SweepAgeMs
    ensures forall k :: k in r ==> r[k] == entries[k]
  {
    map k | k in entries && entries[k].timestamp >= now - SweepAgeMs :: entries[k]
  }

  /** A sweep cannot change what a later call finds: it only drops entries
      too old to be recalled at any time after `sweepTime - 180000`. */
  lemma SweepUnobservable(entries: map<string, TicketEntry>, sweepTime: int, key: string, now: int)
    requires now >= sweepTime - (SweepAgeMs - DuplicateWindowMs)
    ensures Recall(Swept(entries, sweepTime), key, now) == Recall(entries, key, now)
  {
  }

  /** The cache after a call at `now`: a duplicate leaves it as it was (the
      entry's time is not refreshed); a new ticket is stored under its key. */
  function EntriesAfter(entries: map<string, TicketEntry>, input: TicketInput, now: int, id: string): map<string, TicketEntry> {
    var key := IdempotencyKey(input);
    if Recall(entries, key, now).Some? then entries else entries[key := TicketEntry(id, now)]
  }

  datatype TicketReply = TicketReply(
    success: bool,
    ticketId: string,
    duplicate: bool,
    priority: Priority,
    responseTime: string,
    customerEmail: string,
    supportEmail: string,
    supportPhone: string,
    businessHours: string,
    alreadyCreated: bool)

  const AlreadyCreatedMessage := "Ticket was already created for this issue."

  function ReplyFor(entries: map<string, TicketEntry>, input: TicketInput, now: int, id: string): (r: TicketReply)
    ensures r.success
    ensures r.duplicate <==> Recall(entries, IdempotencyKey(input), now).Some?
    ensures r.ticketId == Recall(entries, IdempotencyKey(input), now).GetOr(id)
    ensures r.alreadyCreated <==> r.duplicate
    ensures r.responseTime == ResponseTime(input.priority) && r.priority == input.priority
    ensures r.customerEmail == input.customerEmail
    ensures r.supportEmail == SupportEmail && r.supportPhone == SupportPhone && r.businessHours == BusinessHours
  {
    var key := IdempotencyKey(input);
    var recalled := Recall(entries, key, now);
    TicketReply(true, recalled.GetOr(id), recalled.Some?, input.priority, ResponseTime(input.priority),
      input.customerEmail, SupportEmail, SupportPhone, BusinessHours, recalled.Some?)
  }

  /** A repeat of a request within two minutes of the ticket being created
      returns that ticket as a duplicate. */
  lemma RepeatWithinWindowIsDuplicate(entries: map<string, TicketEntry>, input: TicketInput, t1: int, t2: int, id1: string, id2: string)
    requires Recall(entries, IdempotencyKey(input), t1).None?
    requires t1 <= t2 < t1 + DuplicateWindowMs
    ensures var after := EntriesAfter(entries, input, t1, id1);
      var again := ReplyFor(after, input, t2, id2);
      again.duplicate && again.ticketId == id1 && EntriesAfter(after, input, t2, id2) == after
  {
  }

  /** Two minutes after creation the same request makes a new ticket and
      replaces the entry. */
  lemma RepeatAfterWindowIsNew(entries: map<string, TicketEntry>, input: TicketInput, t1: int, t2: int, id1: string, id2: string)
    requires Recall(entries, IdempotencyKey(input), t1).None?
    requires t2 >= t1 + DuplicateWindowMs
    ensures var after := EntriesAfter(entries, input, t1, id1);
      var again := ReplyFor(after, input, t2, id2);
      !again.duplicate && again.ticketId == id2
      && EntriesAfter(after, input, t2, id2)[IdempotencyKey(input)] == TicketEntry(id2, t2)
  {
  }

  /** Because a duplicate does not refresh the entry, repeats keep being
      answered only until two minutes after the first call. */
  lemma DuplicatesDoNotExtendWindow(entries: map<string, TicketEntry>, input: TicketInput, t1: int, t2: int, t3: int, id1: string, id2: string, id3: string)
    requires Recall(entries, IdempotencyKey(input), t1).None?
    requires t1 <= t2 < t1 + DuplicateWindowMs <= t3
    ensures var e1 := EntriesAfter(entries, input, t1, id1);
      var e2 := EntriesAfter(e1, input, t2, id2);
      !ReplyFor(e2, input, t3, id3).duplicate
  {
  }

  /** The shape of every id `generateTicketId` makes. */
  predicate IsTicketId(id: string) {
    |id| == 12 && id[..4] == "TKT-" && forall i :: 4 <= i < 12 ==> id[i] in Alphabet
  }

  /** Every stored ticket id has that shape. */
  predicate WellFormedEntries(entries: map<string, TicketEntry>) {
    forall k :: k in entries ==> IsTicketId(entries[k].ticketId)
  }

  /** A call keeps the stored ids well formed, so that a duplicate, too,
      replies with an id of the generated shape. */
  lemma CallKeepsIdsWellFormed(entries: map<string, TicketEntry>, input: TicketInput, now: int, id: string)
    requires WellFormedEntries(entries) && IsTicketId(id)
    ensures WellFormedEntries(EntriesAfter(entries, input, now, id))
    ensures IsTicketId(ReplyFor(entries, input, now, id).ticketId)
  {
    var key := IdempotencyKey(input);
    if Recall(entries, key, now).Some? {
      assert ReplyFor(entries, input, now, id).ticketId == entries[key].ticketId;
    }
  }

  /** A sweep keeps the stored ids well formed. */
  lemma SweepKeepsIdsWellFormed(entries: map<string, TicketEntry>, now: int)
    requires WellFormedEntries(entries)
    ensures WellFormedEntries(Swept(entries, now))
  {
  }

  /** The module-level `recentTickets` map. */
  class TicketCache {
    var entries: map<string, TicketEntry>

    /** Every stored ticket id has the generated shape. */
    predicate Valid()
      reads this
    {
      WellFormedEntries(entries)
    }

    constructor ()
      ensures entries == map[] && Valid()
    {
      entries := map[];
    }

    /** The tool's `execute`: one clock reading `now` and the eight random
        draws for a new id. */
    method CreateTicket(input: TicketInput, now: int, draws: seq<real>) returns (reply: TicketReply)
      requires |draws| == 8 && forall i :: 0 <= i < 8 ==> IsDraw(draws[i])
      requires Valid()
      modifies this
      ensures reply == ReplyFor(old(entries), input, now, TicketIdOf(draws))
      ensures entries == EntriesAfter(old(entries), input, now, TicketIdOf(draws))
      ensures Valid() && IsTicketId(reply.ticketId)
    {
      CallKeepsIdsWellFormed(entries, input, now, TicketIdOf(draws));
      var key := IdempotencyKey(input);
      if key in entries && now - entries[key].timestamp < DuplicateWindowMs {
        var existing := entries[key];
        reply := TicketReply(true, existing.ticketId, true, input.priority, ResponseTime(input.priority),
          input.customerEmail, SupportEmail, SupportPhone, BusinessHours, true);
      } else {
        var ticketId := GenerateTicketId(draws);
        entries := entries[key := TicketEntry(ticketId, now)];
        reply := TicketReply(true, ticketId, false, input.priority, ResponseTime(input.priority),
          input.customerEmail, SupportEmail, SupportPhone, BusinessHours, false);
      }
    }

    /** The five-minute sweep at `now`: every entry older than five minutes
        is deleted, one key at a time. */
    method Sweep(now: int)
      requires Valid()
      modifies this
      ensures entries == Swept(old(entries), now)
      ensures Valid()
    {
      SweepKeepsIdsWellFormed(entries, now);
      var keys := entries.Keys;
      ghost var start := entries;
      while keys != {}
        invariant keys <= start.Keys
        invariant forall k :: k in entries <==>
          k in start && (k in keys || start[k].timestamp >= now - SweepAgeMs)
        invariant forall k :: k in entries ==> entries[k] == start[k]
        decreases keys
      {
        var key :| key in keys;
        if entries[key].timestamp < now - SweepAgeMs {
          entries := entries - {key};
        }
        keys := keys - {key};
      }
      assert entries == Swept(start, now);
    }
  }
}
