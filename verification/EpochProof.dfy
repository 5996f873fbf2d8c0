/** What every step of the epoch domain keeps. */
module EpochProof {
  import opened EpochDomain

  predicate Owning(pc: PC) { pc !in {Outside, Claim} }
  predicate Entered(pc: PC) { pc !in {Outside, Claim, Bump, Announce, Activate, Disown} }

  /** `c` is at or past the scan of a pass. */
  predicate Passing(th: Thread) {
    th.pc in {ScanActive, ScanEpoch, Take, Sweep} || (th.pc in {LoadHead, SwapHead} && th.sweeping)
  }

  /** How many slots the pass has read. */
  function Read(th: Thread, n: nat): nat { if th.pc in {ScanActive, ScanEpoch} then th.at else n }

  // ---------------------------------------------------------------- slots

  ghost predicate SlotOk(threads: seq<Thread>, x: Slot, j: int, global: nat, clock: nat) {
    && x.announced <= global
    && (x.owner != NONE ==> 0 <= x.owner < |threads| && threads[x.owner].slot == j && Owning(threads[x.owner].pc))
    && (x.active ==> x.owner != NONE && Entered(threads[x.owner].pc) && x.announced <= x.floor <= global && x.since <= clock)
  }

  /** Either the pass took the announced epoch into account, or the slot became active after the
      guard that runs the pass began. */
  predicate Covered(x: Slot, least: int, epoch: nat) {
    x.active ==> (least != NONE && least <= x.announced) || epoch <= x.floor
  }

  ghost predicate PassOk(slots: seq<Slot>, th: Thread) {
    && (forall j {:trigger slots[j]} :: 0 <= j < |slots| && j < Read(th, |slots|) ==> Covered(slots[j], th.least, th.epoch))
    && (th.slot < Read(th, |slots|) ==> th.least != NONE && th.least <= th.epoch)
    && (th.pc in {ScanActive, ScanEpoch} ==> th.at <= |slots|) && (th.pc == ScanEpoch ==> th.at < |slots|)
    && (th.least == NONE || 0 <= th.least)
  }

  ghost predicate ThreadOk(slots: seq<Slot>, global: nat, t: int, th: Thread) {
    && (Owning(th.pc) ==> 0 <= th.slot < |slots| && slots[th.slot].owner == t)
    && (Owning(th.pc) && !Entered(th.pc) ==> !slots[th.slot].active)
    && (th.pc in {Announce, Activate} ==> th.epoch <= global)
    && (th.pc == Activate || Entered(th.pc) ==> slots[th.slot].announced == th.epoch)
    && (Entered(th.pc) ==> slots[th.slot].active)
    && (Passing(th) ==> PassOk(slots, th))
    && (th.pc == LoadEpoch ==> !th.sweeping)
    && (th.list != [] ==> th.pc == Sweep || (th.pc in {LoadHead, SwapHead} && th.sweeping))
  }

  // ---------------------------------------------------------------- items

  /** The item was retired no earlier than any active guard that may hold the node began. */
  ghost predicate ItemOk(slots: seq<Slot>, gone: map<int, nat>, it: Item) {
    && it.node in gone
    && forall j {:trigger slots[j]} :: 0 <= j < |slots| && slots[j].active && slots[j].since <= gone[it.node] ==> slots[j].floor <= it.epoch
  }

  ghost predicate ItemsOk(slots: seq<Slot>, gone: map<int, nat>, list: seq<Item>) {
    forall i {:trigger list[i]} :: 0 <= i < |list| ==> ItemOk(slots, gone, list[i])
  }

  ghost predicate HandOk(slots: seq<Slot>, gone: map<int, nat>, th: Thread) {
    && ItemsOk(slots, gone, th.list)
    && (th.pc in {LoadHead, SwapHead} ==> ItemOk(slots, gone, th.item))
    && (th.pc == LoadEpoch ==> th.item.node in gone)
  }

  /** A freed node is out of every guard's reach. */
  ghost predicate FreedOk(slots: seq<Slot>, gone: map<int, nat>, freed: multiset<int>) {
    forall x {:trigger freed[x]} :: x in freed ==>
      x in gone && forall j {:trigger slots[j]} :: 0 <= j < |slots| && slots[j].active ==> gone[x] < slots[j].since
  }

  // ---------------------------------------------------------------- where the items are

  /** How often node `x` is in a list. */
  function InList(list: seq<Item>, x: int): nat {
    if list == [] then 0 else (if list[0].node == x then 1 else 0) + InList(list[1..], x)
  }

  predicate InHand(pc: PC) { pc in {LoadEpoch, LoadHead, SwapHead} }

  /** What a thread keeps to itself: the item it pushes and the list it sweeps. */
  function Private(th: Thread, x: int): nat {
    InList(th.list, x) + if InHand(th.pc) && th.item.node == x then 1 else 0
  }

  function InHands(threads: seq<Thread>, x: int): nat {
    if threads == [] then 0 else Private(threads[0], x) + InHands(threads[1..], x)
  }

  /** Every retired node is in exactly one place: the shared list, one thread's hands, or freed. */
  ghost predicate PlaceOk(s: State, x: int) {
    && s.given[x] == InList(s.shared, x) + InHands(s.threads, x) + s.freed[x]
    && s.given[x] <= 1 && (x in s.given ==> x in s.gone)
  }

  ghost predicate GivenOk(s: State) {
    forall x {:trigger PlaceOk(s, x)} :: PlaceOk(s, x)
  }

  lemma {:induction false} HandsUpdate(threads: seq<Thread>, t: nat, th: Thread, x: int)
    requires t < |threads|
    ensures InHands(threads[t := th], x) + Private(threads[t], x) == InHands(threads, x) + Private(th, x)
  {
    var next := threads[t := th];
    if t == 0 {
      assert next[1..] == threads[1..];
    } else {
      HandsUpdate(threads[1..], t - 1, th, x);
      assert next[1..] == threads[1..][t - 1 := th] && next[0] == threads[0];
    }
  }

  /** Items move between thread `t`, the shared list and the freed nodes, and none is lost. */
  lemma GivenMoves(s: State, s': State, t: nat, th: Thread)
    requires GivenOk(s) && t < |s.threads| && s'.threads == s.threads[t := th] && s'.given == s.given && s'.gone == s.gone
    requires forall x ::
      InList(s'.shared, x) + Private(th, x) + s'.freed[x] == InList(s.shared, x) + Private(s.threads[t], x) + s.freed[x]
    ensures GivenOk(s')
  {
    forall x ensures PlaceOk(s', x) {
      assert PlaceOk(s, x);
      HandsUpdate(s.threads, t, th, x);
    }
  }

  // ---------------------------------------------------------------- the invariant

  ghost predicate Inv(s: State) {
    && (forall j {:trigger s.slots[j]} :: 0 <= j < |s.slots| ==> SlotOk(s.threads, s.slots[j], j, s.global, s.clock))
    && (forall t {:trigger s.threads[t]} :: 0 <= t < |s.threads| ==> ThreadOk(s.slots, s.global, t, s.threads[t]))
    && (forall t {:trigger s.threads[t]} :: 0 <= t < |s.threads| ==> HandOk(s.slots, s.gone, s.threads[t]))
    && ItemsOk(s.slots, s.gone, s.shared)
    && FreedOk(s.slots, s.gone, s.freed)
    && (forall x {:trigger s.gone[x]} :: x in s.gone ==> s.gone[x] < s.clock)
    && GivenOk(s)
  }

  // ---------------------------------------------------------------- how slots may change

  /** What others may rely on when a step of `u` changes the slots: only `u`'s slot or a free one
      changes, an announced epoch never changes while active, and a slot becomes active with the
      present clock and epoch. */
  ghost predicate SlotEvolves(x: Slot, x': Slot, global: nat, clock: nat, u: int) {
    && (x.owner != u && x.owner != NONE ==> x' == x)
    && (x.owner == NONE ==> x'.owner in {NONE, u}) && (x.owner == u ==> x'.owner in {NONE, u})
    && (x'.active ==> (x.active && x' == x) || (x'.since == clock && x'.floor == global))
  }

  ghost predicate SlotsEvolve(slots: seq<Slot>, slots': seq<Slot>, global: nat, clock: nat, u: int) {
    && |slots'| == |slots|
    && forall j {:trigger slots'[j]} :: 0 <= j < |slots| ==> SlotEvolves(slots[j], slots'[j], global, clock, u)
  }

  lemma ThreadStable(s: State, slots': seq<Slot>, global': nat, u: int, t: nat)
    requires Inv(s) && t < |s.threads| && u != t && u != NONE && s.global <= global'
    requires SlotsEvolve(s.slots, slots', s.global, s.clock, u)
    ensures ThreadOk(slots', global', t, s.threads[t])
  {
    var th := s.threads[t];
    assert ThreadOk(s.slots, s.global, t, th);
    if Owning(th.pc) {
      var j := th.slot;
      assert SlotOk(s.threads, s.slots[j], j, s.global, s.clock);
      assert SlotEvolves(s.slots[j], slots'[j], s.global, s.clock, u) && slots'[j] == s.slots[j];
      if Passing(th) {
        assert th.epoch <= s.global;
        forall i | 0 <= i < |slots'| && i < Read(th, |slots'|) ensures Covered(slots'[i], th.least, th.epoch) {
          assert Covered(s.slots[i], th.least, th.epoch) && SlotEvolves(s.slots[i], slots'[i], s.global, s.clock, u);
        }
      }
    }
  }

  lemma ItemStable(slots: seq<Slot>, slots': seq<Slot>, gone: map<int, nat>, global: nat, clock: nat, u: int, it: Item)
    requires SlotsEvolve(slots, slots', global, clock, u) && ItemOk(slots, gone, it) && gone[it.node] < clock
    ensures ItemOk(slots', gone, it)
  {
    forall j | 0 <= j < |slots'| && slots'[j].active && slots'[j].since <= gone[it.node] ensures slots'[j].floor <= it.epoch {
      assert SlotEvolves(slots[j], slots'[j], global, clock, u);
      assert slots[j].active;
    }
  }

  lemma ItemsStable(slots: seq<Slot>, slots': seq<Slot>, gone: map<int, nat>, global: nat, clock: nat, u: int, list: seq<Item>)
    requires SlotsEvolve(slots, slots', global, clock, u) && ItemsOk(slots, gone, list)
    requires forall x {:trigger gone[x]} :: x in gone ==> gone[x] < clock
    ensures ItemsOk(slots', gone, list)
  {
    forall i | 0 <= i < |list| ensures ItemOk(slots', gone, list[i]) {
      assert ItemOk(slots, gone, list[i]);
      ItemStable(slots, slots', gone, global, clock, u, list[i]);
    }
  }

  lemma HandStable(slots: seq<Slot>, slots': seq<Slot>, gone: map<int, nat>, global: nat, clock: nat, u: int, th: Thread)
    requires SlotsEvolve(slots, slots', global, clock, u) && HandOk(slots, gone, th)
    requires forall x {:trigger gone[x]} :: x in gone ==> gone[x] < clock
    ensures HandOk(slots', gone, th)
  {
    ItemsStable(slots, slots', gone, global, clock, u, th.list);
    if th.pc in {LoadHead, SwapHead} {
      ItemStable(slots, slots', gone, global, clock, u, th.item);
    }
  }

  lemma FreedStable(slots: seq<Slot>, slots': seq<Slot>, gone: map<int, nat>, global: nat, clock: nat, u: int, freed: multiset<int>)
    requires SlotsEvolve(slots, slots', global, clock, u) && FreedOk(slots, gone, freed)
    requires forall x {:trigger gone[x]} :: x in gone ==> gone[x] < clock
    ensures FreedOk(slots', gone, freed)
  {
    forall x | x in freed
      ensures x in gone && forall j {:trigger slots'[j]} :: 0 <= j < |slots'| && slots'[j].active ==> gone[x] < slots'[j].since
    {
      assert freed[x] > 0;
      forall j | 0 <= j < |slots'| && slots'[j].active ensures gone[x] < slots'[j].since {
        assert SlotEvolves(slots[j], slots'[j], global, clock, u);
      }
    }
  }

  /** A step of `t` that changes its own locals, its slot and the epoch, and moves no item. */
  lemma SlotStep(s: State, t: nat, th: Thread, slots': seq<Slot>, global': nat)
    requires Inv(s) && t < |s.threads| && s.global <= global'
    requires SlotsEvolve(s.slots, slots', s.global, s.clock, t)
    requires forall j {:trigger slots'[j]} :: 0 <= j < |slots'| && (slots'[j].owner == t || slots'[j] != s.slots[j]) ==>
      SlotOk(s.threads[t := th], slots'[j], j, global', s.clock)
    requires ThreadOk(slots', global', t, th) && HandOk(s.slots, s.gone, th)
    requires forall x :: Private(th, x) == Private(s.threads[t], x)
    ensures Inv(Go(s, t, th).(slots := slots', global := global'))
  {
    var s' := Go(s, t, th).(slots := slots', global := global');
    forall j | 0 <= j < |slots'| ensures SlotOk(s'.threads, slots'[j], j, global', s.clock) {
      assert SlotOk(s.threads, s.slots[j], j, s.global, s.clock);
    }
    forall u | 0 <= u < |s'.threads|
      ensures ThreadOk(slots', global', u, s'.threads[u]) && HandOk(slots', s.gone, s'.threads[u])
    {
      if u != t {
        assert HandOk(s.slots, s.gone, s.threads[u]);
        ThreadStable(s, slots', global', t, u);
      }
      HandStable(s.slots, slots', s.gone, s.global, s.clock, t, s'.threads[u]);
    }
    ItemsStable(s.slots, slots', s.gone, s.global, s.clock, t, s.shared);
    FreedStable(s.slots, slots', s.gone, s.global, s.clock, t, s.freed);
    GivenMoves(s, s', t, th);
  }

  /** A step of `t` that moves items among the shared list, its own hands and the freed ones. */
  lemma ItemStep(s: State, t: nat, th: Thread, shared': seq<Item>, freed': multiset<int>)
    requires Inv(s) && t < |s.threads| && Owning(th.pc) && Entered(th.pc) == Entered(s.threads[t].pc)
    requires Owning(s.threads[t].pc) && th.slot == s.threads[t].slot
    requires ThreadOk(s.slots, s.global, t, th) && HandOk(s.slots, s.gone, th)
    requires ItemsOk(s.slots, s.gone, shared') && FreedOk(s.slots, s.gone, freed')
    requires forall x ::
      InList(shared', x) + Private(th, x) + freed'[x] == InList(s.shared, x) + Private(s.threads[t], x) + s.freed[x]
    ensures Inv(Go(s, t, th).(shared := shared', freed := freed'))
  {
    var s' := Go(s, t, th).(shared := shared', freed := freed');
    forall j | 0 <= j < |s.slots| ensures SlotOk(s'.threads, s.slots[j], j, s.global, s.clock) {
      assert SlotOk(s.threads, s.slots[j], j, s.global, s.clock);
    }
    GivenMoves(s, s', t, th);
  }
}
