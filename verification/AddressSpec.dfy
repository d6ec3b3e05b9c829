/**
 The address index as a value: what internal/wallet/addresses.go and keys.go do to the lists, the
 derived keys and the flags. The class in AddressIndex.dfy is proved against these functions.
 */
module AddressSpec {
  import opened Results
  import opened Bitcoin

  const KEY_TYPE_EXTERNAL: nat := 0
  const KEY_TYPE_INTERNAL: nat := 1
  const KEY_TYPE_RELATE_OUT: nat := 2
  const KEY_TYPE_RELATE_IN: nat := 3
  const KEY_TYPE_COUNT: nat := 4

  /** One address entry. `keyed` is false when a reload dropped the entry's public key. */
  datatype Slot = Slot(keyed: bool, used: bool, given: bool)

  datatype DerivedSlot = DerivedSlot(keyType: nat, keyIndex: nat, keyHash: Hash32, slot: Slot)

  /**
   `lists[t][i]` is the address of child key (t, i). `derived` holds the independent keys.
   `gap` is the configured number of unused addresses kept ahead of the last used one.
   */
  datatype IndexState = IndexState(
    wallet: nat,
    gap: nat,
    lists: seq<seq<Slot>>,
    derived: map<PublicKey, DerivedSlot>)

  /** Which entry a lookup returned: the identity of the address object. */
  datatype AddressRef = Listed(keyType: nat, keyIndex: nat) | Registered(key: PublicKey)

  datatype FindResult = UnknownTemplate | Absent | Present(ref: AddressRef)

  /** What an address object holds besides its flags. */
  datatype AddressInfo = AddressInfo(
    address: RawAddress,
    publicKey: PublicKey,
    keyType: nat,
    keyIndex: nat,
    keyHash: Option<Hash32>)

  ghost predicate WellFormed(ix: IndexState) {
    && |ix.lists| == KEY_TYPE_COUNT
    && forall k :: k in ix.derived ==>
         && k.NextPublicKey?
         && ix.derived[k].keyType < KEY_TYPE_COUNT
         && ix.derived[k].keyIndex < |ix.lists[ix.derived[k].keyType]|
  }

  predicate ValidRef(ix: IndexState, ref: AddressRef) {
    match ref
    case Listed(t, i) => t < |ix.lists| && i < |ix.lists[t]|
    case Registered(k) => k in ix.derived
  }

  function SlotOf(ix: IndexState, ref: AddressRef): Slot
    requires ValidRef(ix, ref)
  {
    match ref
    case Listed(t, i) => ix.lists[t][i]
    case Registered(k) => ix.derived[k].slot
  }

  /** The key an entry stands for, whether or not the entry still holds it. */
  function KeyBehind(wallet: nat, ref: AddressRef): PublicKey {
    match ref
    case Listed(t, i) => ChildKey(wallet, t, i)
    case Registered(k) => k
  }

  /** Relationship addresses handed out to others are pay to public key, all others key hash. */
  function StoredAddress(wallet: nat, ref: AddressRef): RawAddress {
    if ref.Listed? && ref.keyType == KEY_TYPE_RELATE_IN
    then PayToKey(KeyBehind(wallet, ref))
    else PayToKeyHash(Hash160(KeyBehind(wallet, ref)))
  }

  function InfoOf(ix: IndexState, ref: AddressRef): AddressInfo
    requires ValidRef(ix, ref)
  {
    var key := if SlotOf(ix, ref).keyed then KeyBehind(ix.wallet, ref) else NoKey;
    match ref
    case Listed(t, i) => AddressInfo(StoredAddress(ix.wallet, ref), key, t, i, None)
    case Registered(k) =>
      var d := ix.derived[k];
      AddressInfo(StoredAddress(ix.wallet, ref), key, d.keyType, d.keyIndex, Some(d.keyHash))
  }

  /** The entry that owns a key, if any. */
  function OwnerOf(ix: IndexState, key: PublicKey): Option<AddressRef> {
    match key
    case ChildKey(w, t, i) =>
      if w == ix.wallet && ValidRef(ix, Listed(t, i)) then Some(Listed(t, i)) else None
    case _ => if key in ix.derived then Some(Registered(key)) else None
  }

  /** The single key an address pays, if it pays one. */
  function PaidKey(ra: RawAddress): Option<PublicKey> {
    match ra
    case PayToKey(k) => Some(k)
    case PayToKeyHash(Hash160(k)) => Some(k)
    case _ => None
  }

  /**
   An address is found exactly when it pays a key the index owns, either in the stored form or,
   while the entry still holds its public key, in either form.
   */
  function Lookup(ix: IndexState, ra: RawAddress): FindResult {
    if HashesOf(ra).None? then UnknownTemplate
    else if PaidKey(ra).None? then Absent
    else
      match OwnerOf(ix, PaidKey(ra).value)
      case None => Absent
      case Some(ref) =>
        if StoredAddress(ix.wallet, ref) == ra || SlotOf(ix, ref).keyed then Present(ref) else Absent
  }

  // ----- marking and the gap -----

  /** One past the last used index, 0 when none is used. */
  function UsedBound(list: seq<Slot>): (n: nat)
    ensures n <= |list|
    ensures n > 0 ==> list[n - 1].used
    ensures forall i :: n <= i < |list| ==> !list[i].used
  {
    if list == [] then 0
    else if list[|list| - 1].used then |list|
    else UsedBound(list[..|list| - 1])
  }

  const FreshSlot := Slot(true, false, false)

  function FreshSlots(n: nat): (r: seq<Slot>)
    ensures |r| == n
    ensures forall i :: 0 <= i < n ==> r[i] == FreshSlot
  {
    seq(n, _ => FreshSlot)
  }

  /** forwardScan: extend a list until a whole gap of unused addresses follows the last used. */
  function ScanList(list: seq<Slot>, gap: nat): (r: seq<Slot>)
    ensures |r| == if UsedBound(list) + gap <= |list| then |list| else UsedBound(list) + gap
    ensures list <= r
    ensures forall i :: |list| <= i < |r| ==> r[i] == FreshSlot
  {
    if UsedBound(list) + gap <= |list| then list
    else list + FreshSlots(UsedBound(list) + gap - |list|)
  }

  function Scan(ix: IndexState, t: nat): IndexState
    requires t < |ix.lists|
  {
    ix.(lists := ix.lists[t := ScanList(ix.lists[t], ix.gap)])
  }

  function SetSlot(ix: IndexState, ref: AddressRef, slot: Slot): (r: IndexState)
    requires ValidRef(ix, ref)
    ensures ValidRef(r, ref) && SlotOf(r, ref) == slot
    ensures |r.lists| == |ix.lists|
  {
    match ref
    case Listed(t, i) => ix.(lists := ix.lists[t := ix.lists[t][i := slot]])
    case Registered(k) => ix.(derived := ix.derived[k := ix.derived[k].(slot := slot)])
  }

  /** Does marking an entry reach the gap test of addresses.go:120? */
  predicate Triggers(ix: IndexState, ref: AddressRef)
    requires ValidRef(ix, ref)
    requires InfoOf(ix, ref).keyType < |ix.lists|
  {
    var info := InfoOf(ix, ref);
    info.keyIndex + ix.gap >= |ix.lists[info.keyType]|
  }

  function Mark(ix: IndexState, ref: AddressRef): IndexState
    requires WellFormed(ix) && ValidRef(ix, ref)
  {
    if SlotOf(ix, ref).used then ix
    else
      var marked := SetSlot(ix, ref, SlotOf(ix, ref).(used := true));
      if Triggers(ix, ref) then Scan(marked, InfoOf(ix, ref).keyType) else marked
  }

  /** AddIndependentKey: a new entry replaces whatever was registered for the key. */
  function AddKey(ix: IndexState, key: PublicKey, keyType: nat, keyIndex: nat, hash: Hash32): IndexState {
    ix.(derived := ix.derived[key := DerivedSlot(keyType, keyIndex, hash, FreshSlot)])
  }

  /** The index after Prepare on a new wallet. */
  function Prepared(wallet: nat, gap: nat): IndexState {
    IndexState(wallet, gap, seq(KEY_TYPE_COUNT, _ => FreshSlots(gap)), map[])
  }

  ghost predicate ExactGap(ix: IndexState) {
    forall t :: 0 <= t < |ix.lists| ==> |ix.lists[t]| == UsedBound(ix.lists[t]) + ix.gap
  }

  /** The last used index is the only one that satisfies the contract of UsedBound. */
  lemma UsedBoundUnique(list: seq<Slot>, n: nat)
    requires n <= |list|
    requires n > 0 ==> list[n - 1].used
    requires forall i :: n <= i < |list| ==> !list[i].used
    ensures UsedBound(list) == n
  {
  }

  lemma {:induction false} UsedBoundMark(list: seq<Slot>, i: nat)
    requires i < |list|
    ensures var n := UsedBound(list);
            UsedBound(list[i := list[i].(used := true)]) == if i < n then n else i + 1
  {
    var n := UsedBound(list);
    UsedBoundUnique(list[i := list[i].(used := true)], if i < n then n else i + 1);
  }

  /** Scanning moves no used slot, and once a list has its gap scanning adds nothing. */
  lemma ScanListBound(list: seq<Slot>, gap: nat)
    ensures UsedBound(ScanList(list, gap)) == UsedBound(list)
    ensures |ScanList(list, gap)| >= UsedBound(list) + gap
  {
    UsedBoundUnique(ScanList(list, gap), UsedBound(list));
  }

  lemma PreparedExactGap(wallet: nat, gap: nat)
    ensures WellFormed(Prepared(wallet, gap)) && ExactGap(Prepared(wallet, gap))
  {
    UsedBoundUnique(FreshSlots(gap), 0);
  }

  /** How long one list is after a listed address of it is marked. */
  lemma MarkListedLength(ix: IndexState, t: nat, i: nat)
    requires WellFormed(ix) && ExactGap(ix) && ValidRef(ix, Listed(t, i))
    ensures var list := Mark(ix, Listed(t, i)).lists[t];
            && |list| == UsedBound(list) + ix.gap
            && |list| == (if i < UsedBound(ix.lists[t]) then |ix.lists[t]| else i + 1 + ix.gap)
  {
    var list := ix.lists[t];
    UsedBoundMark(list, i);
    ScanListBound(list[i := list[i].(used := true)], ix.gap);
  }

  lemma MarkListedOthers(ix: IndexState, t: nat, i: nat, o: nat)
    requires WellFormed(ix) && ValidRef(ix, Listed(t, i)) && o < KEY_TYPE_COUNT && o != t
    ensures Mark(ix, Listed(t, i)).lists[o] == ix.lists[o]
  {
  }

  /**
   The gap is exact after every mark, the trigger fires exactly when the marked index lies past the
   last used one, and only a listed address can then move the end of its list.
   */
  lemma MarkKeepsExactGap(ix: IndexState, ref: AddressRef)
    requires WellFormed(ix) && ExactGap(ix) && ValidRef(ix, ref)
    ensures ExactGap(Mark(ix, ref)) && |Mark(ix, ref).lists| == |ix.lists|
    ensures var info := InfoOf(ix, ref);
            Triggers(ix, ref) <==> info.keyIndex >= UsedBound(ix.lists[info.keyType])
    ensures forall t :: 0 <= t < |ix.lists| ==>
              |Mark(ix, ref).lists[t]| ==
                if ref.Listed? && ref.keyType == t && ref.keyIndex >= UsedBound(ix.lists[t])
                then ref.keyIndex + 1 + ix.gap
                else |ix.lists[t]|
  {
    match ref
    case Listed(t, i) =>
      MarkListedLength(ix, t, i);
      forall o: nat | o < KEY_TYPE_COUNT && o != t
        ensures Mark(ix, ref).lists[o] == ix.lists[o]
      {
        MarkListedOthers(ix, t, i, o);
      }
    case Registered(k) =>
      assert Mark(ix, ref).lists == ix.lists;
  }

  // ----- giving out -----

  /** The first address of a list that is neither used nor given. */
  function FirstFree(list: seq<Slot>): (r: Option<nat>)
    ensures r.Some? ==>
      && r.value < |list| && !list[r.value].used && !list[r.value].given
      && (forall i :: 0 <= i < r.value ==> list[i].used || list[i].given)
    ensures r.None? ==> forall i :: 0 <= i < |list| ==> list[i].used || list[i].given
  {
    if list == [] then None
    else
      var last := |list| - 1;
      var before := FirstFree(list[..last]);
      if before.Some? then before
      else if !list[last].used && !list[last].given then Some(last)
      else None
  }

  function Give(ix: IndexState, ref: AddressRef): IndexState
    requires ValidRef(ix, ref)
  {
    SetSlot(ix, ref, SlotOf(ix, ref).(given := true))
  }

  /** Giving an address out uses none, so it moves no gap. */
  lemma GiveKeepsExactGap(ix: IndexState, ref: AddressRef)
    requires ValidRef(ix, ref)
    ensures ExactGap(ix) ==> ExactGap(Give(ix, ref))
  {
    var later := Give(ix, ref);
    forall t | 0 <= t < |ix.lists| ensures |later.lists[t]| == |ix.lists[t]| && UsedBound(later.lists[t]) == UsedBound(ix.lists[t]) {
      UsedBoundUnique(later.lists[t], UsedBound(ix.lists[t]));
    }
  }

  // ----- monotony -----

  /** Everything an index owned it still owns, with the same identity. */
  ghost predicate Extends(ix: IndexState, later: IndexState) {
    && later.wallet == ix.wallet && later.gap == ix.gap && |later.lists| == |ix.lists|
    && (forall t :: 0 <= t < |ix.lists| ==> |ix.lists[t]| <= |later.lists[t]|)
    && (forall t, i :: 0 <= t < |ix.lists| && 0 <= i < |ix.lists[t]| ==>
          && later.lists[t][i].keyed == ix.lists[t][i].keyed
          && (ix.lists[t][i].used ==> later.lists[t][i].used))
    && (forall k :: k in ix.derived ==>
          && k in later.derived
          && later.derived[k].keyType == ix.derived[k].keyType
          && later.derived[k].keyIndex == ix.derived[k].keyIndex
          && later.derived[k].keyHash == ix.derived[k].keyHash
          && (ix.derived[k].slot.keyed ==> later.derived[k].slot.keyed))
  }

  lemma ExtendsReflexive(ix: IndexState)
    ensures Extends(ix, ix)
  {
  }

  lemma ExtendsTransitive(a: IndexState, b: IndexState, c: IndexState)
    requires Extends(a, b) && Extends(b, c)
    ensures Extends(a, c)
  {
    forall t, i | 0 <= t < |a.lists| && 0 <= i < |a.lists[t]|
      ensures c.lists[t][i].keyed == a.lists[t][i].keyed
      ensures a.lists[t][i].used ==> c.lists[t][i].used
    {
      assert b.lists[t][i].keyed == a.lists[t][i].keyed;
    }
  }

  lemma ScanExtends(ix: IndexState, t: nat)
    requires WellFormed(ix) && t < KEY_TYPE_COUNT
    ensures WellFormed(Scan(ix, t)) && Extends(ix, Scan(ix, t))
    ensures forall ref :: ValidRef(ix, ref) ==>
              ValidRef(Scan(ix, t), ref) && SlotOf(Scan(ix, t), ref) == SlotOf(ix, ref)
  {
    var later := Scan(ix, t);
    assert forall o :: 0 <= o < |ix.lists| ==> ix.lists[o] <= later.lists[o];
  }

  lemma SetUsedExtends(ix: IndexState, ref: AddressRef)
    requires WellFormed(ix) && ValidRef(ix, ref)
    ensures var marked := SetSlot(ix, ref, SlotOf(ix, ref).(used := true));
            WellFormed(marked) && Extends(ix, marked)
  {
    var marked := SetSlot(ix, ref, SlotOf(ix, ref).(used := true));
    assert forall t :: 0 <= t < |ix.lists| ==> |marked.lists[t]| == |ix.lists[t]|;
  }

  lemma MarkExtends(ix: IndexState, ref: AddressRef)
    requires WellFormed(ix) && ValidRef(ix, ref)
    ensures WellFormed(Mark(ix, ref)) && Extends(ix, Mark(ix, ref))
    ensures ValidRef(Mark(ix, ref), ref) && SlotOf(Mark(ix, ref), ref).used
    ensures Mark(ix, ref).derived.Keys == ix.derived.Keys
  {
    var marked := SetSlot(ix, ref, SlotOf(ix, ref).(used := true));
    SetUsedExtends(ix, ref);
    if !SlotOf(ix, ref).used && Triggers(ix, ref) {
      ScanExtends(marked, InfoOf(ix, ref).keyType);
      ExtendsTransitive(ix, marked, Mark(ix, ref));
    }
  }

  lemma LookupExtends(ix: IndexState, later: IndexState, ra: RawAddress)
    requires Extends(ix, later) && Lookup(ix, ra).Present?
    ensures Lookup(later, ra) == Lookup(ix, ra)
    ensures var ref := Lookup(ix, ra).ref;
            var a, b := InfoOf(ix, ref), InfoOf(later, ref);
            b.keyType == a.keyType && b.keyIndex == a.keyIndex && b.keyHash == a.keyHash
  {
  }

  /** Both forms of an owned key lead to that key's own entry. */
  lemma OwnedKeyIsFound(ix: IndexState, key: PublicKey)
    requires OwnerOf(ix, key).Some?
    ensures var ref := OwnerOf(ix, key).value;
            && KeyBehind(ix.wallet, ref) == key
            && (Lookup(ix, PayToKey(key)) == Present(ref) <==>
                  SlotOf(ix, ref).keyed || (ref.Listed? && ref.keyType == KEY_TYPE_RELATE_IN))
            && (Lookup(ix, PayToKeyHash(Hash160(key))) == Present(ref) <==>
                  SlotOf(ix, ref).keyed || !(ref.Listed? && ref.keyType == KEY_TYPE_RELATE_IN))
  {
  }
}
