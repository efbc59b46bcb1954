/** A PHP array as the filter uses it: an insertion-ordered association list
    from keys (integer or string) to values, together with the "next free
    element" counter that `$a[] = v` consumes.

    Integer-key arithmetic follows a 64-bit build of PHP before 8.3: the
    counter starts at 0, a negative key never moves it, and it saturates at
    `PHP_INT_MAX`. */
module PhpArrays {
  import opened Results
  import opened PhpStrings

  datatype Key = IntKey(i: int) | StrKey(s: string)

  /** The key PHP stores for a string offset: a canonical decimal string
      (optional `-`, no leading zero, not `-0`) whose value fits a platform
      integer becomes an integer key; every other string stays a string key. */
  function NormalizeKey(s: string): (k: Key)
    ensures k.StrKey? ==> k.s == s
    ensures k.IntKey? ==> PhpIntMin <= k.i <= PhpIntMax
  {
    if |s| >= 2 && s[0] == '-' && IsCanonicalDigits(s[1..]) && s[1..] != "0"
       && ParseDigits(s[1..]) <= PhpIntMax + 1
    then IntKey(-(ParseDigits(s[1..]) as int))
    else if IsCanonicalDigits(s) && ParseDigits(s) <= PhpIntMax
    then IntKey(ParseDigits(s))
    else StrKey(s)
  }

  /** A key that can occur in a PHP array: an integer in range, or a string
      that the key cast leaves alone. */
  predicate IsNormalKey(k: Key) {
    match k
    case IntKey(i) => PhpIntMin <= i <= PhpIntMax
    case StrKey(s) => NormalizeKey(s) == k
  }

  /** An integer key that `NormalizeKey` produced is spelled exactly as the
      decimal form of its value. */
  lemma NormalizedIntKeyIsDecimal(s: string)
    requires NormalizeKey(s).IntKey?
    ensures DecimalString(NormalizeKey(s).i) == s
  {
    if |s| >= 2 && s[0] == '-' && IsCanonicalDigits(s[1..]) && s[1..] != "0"
       && ParseDigits(s[1..]) <= PhpIntMax + 1 {
      var tail := s[1..];
      assert tail[0] != '0';
      ParseDigitsPositive(tail);
      DigitsOfParse(tail);
      assert s == "-" + tail;
    } else {
      DigitsOfParse(s);
    }
  }

  /** The decimal form of every platform integer is cast back to that
      integer key. */
  lemma DecimalKeyNormalizes(i: int)
    requires PhpIntMin <= i <= PhpIntMax
    ensures NormalizeKey(DecimalString(i)) == IntKey(i)
  {
    var s := DecimalString(i);
    if i >= 0 {
      assert s[0] != '-';
    }
  }

  /** Casting is idempotent: a normalised key is a normal key. */
  lemma NormalizeKeyIsNormal(s: string)
    ensures IsNormalKey(NormalizeKey(s))
  {
  }

  datatype Entry<V> = Entry(key: Key, value: V)

  datatype PhpArray<V> = PhpArray(entries: seq<Entry<V>>, nextFree: int)

  /** `[]`. */
  function EmptyArray<V>(): PhpArray<V> {
    PhpArray([], 0)
  }

  ghost predicate UniqueKeys<V>(es: seq<Entry<V>>) {
    forall i, j :: 0 <= i < j < |es| ==> es[i].key != es[j].key
  }

  /** Every integer key lies below the next free element, except the one
      case where the counter has saturated on `PHP_INT_MAX` itself. */
  ghost predicate KeyBelowNext(k: Key, nextFree: int) {
    IsNormalKey(k) && (k.IntKey? ==> k.i < nextFree || k.i == nextFree == PhpIntMax)
  }

  /** The invariant every PHP array value satisfies. */
  ghost predicate Wf<V>(a: PhpArray<V>) {
    && UniqueKeys(a.entries)
    && 0 <= a.nextFree <= PhpIntMax
    && forall i :: 0 <= i < |a.entries| ==> KeyBelowNext(a.entries[i].key, a.nextFree)
  }

  /** Position of key `k`, searching from the most recent entry. */
  function IndexOf<V>(es: seq<Entry<V>>, k: Key): (r: Option<nat>)
    ensures r.Some? ==> r.value < |es| && es[r.value].key == k
    ensures r.None? ==> forall i :: 0 <= i < |es| ==> es[i].key != k
  {
    if |es| == 0 then None
    else if es[|es| - 1].key == k then Some(|es| - 1)
    else IndexOf(es[..|es| - 1], k)
  }

  /** `$a[$k] ?? null`, with absence made explicit. */
  function Get<V>(a: PhpArray<V>, k: Key): (r: Option<V>)
    ensures r.Some? <==> exists i :: 0 <= i < |a.entries| && a.entries[i].key == k
    ensures r.Some? ==> exists i :: 0 <= i < |a.entries| && a.entries[i] == Entry(k, r.value)
  {
    match IndexOf(a.entries, k)
    case Some(i) => Some(a.entries[i].value)
    case None => None
  }

  /** With unique keys, the entry at any position is what `Get` finds. */
  lemma GetAt<V>(a: PhpArray<V>, i: int)
    requires UniqueKeys(a.entries) && 0 <= i < |a.entries|
    ensures Get(a, a.entries[i].key) == Some(a.entries[i].value)
  {
  }

  /** Two arrays whose entries agree on every position but one, where both
      hold key `k`, agree on every other key. */
  lemma GetOthersAfterReplace<V>(a: PhpArray<V>, b: PhpArray<V>, i: nat, k: Key)
    requires UniqueKeys(a.entries) && UniqueKeys(b.entries)
    requires |a.entries| == |b.entries| && i < |a.entries|
    requires a.entries[i].key == k && b.entries[i].key == k
    requires forall j :: 0 <= j < |a.entries| && j != i ==> a.entries[j] == b.entries[j]
    ensures forall k' :: k' != k ==> Get(b, k') == Get(a, k')
  {
  }

  /** Appending an entry with a fresh key leaves every other key's value as
      it was. */
  lemma GetOthersAfterInsert<V>(a: PhpArray<V>, b: PhpArray<V>, k: Key, v: V)
    requires UniqueKeys(b.entries)
    requires b.entries == a.entries + [Entry(k, v)]
    ensures forall k' :: k' != k ==> Get(b, k') == Get(a, k')
  {
  }

  /** The counter after an insertion under key `k`. */
  function NextAfter(nextFree: int, k: Key): int {
    if k.IntKey? && k.i >= nextFree then
      (if k.i < PhpIntMax then k.i + 1 else PhpIntMax)
    else
      nextFree
  }

  /** `$a[$k] = $v` for an already cast key `k`: an existing key keeps its
      position and takes the new value; a new key is added at the end. */
  function Set<V>(a: PhpArray<V>, k: Key, v: V): (r: PhpArray<V>)
    requires Wf(a) && IsNormalKey(k)
    ensures Wf(r)
    ensures Get(r, k) == Some(v)
    ensures forall k' :: k' != k ==> Get(r, k') == Get(a, k')
    ensures Get(a, k).Some? ==> |r.entries| == |a.entries| && r.nextFree == a.nextFree
    ensures Get(a, k).Some? ==> forall i :: 0 <= i < |a.entries| ==> r.entries[i].key == a.entries[i].key
    ensures Get(a, k).None? ==> r.entries == a.entries + [Entry(k, v)]
    ensures Get(a, k).None? && k.IntKey? && k.i >= a.nextFree ==>
              r.nextFree == (if k.i < PhpIntMax then k.i + 1 else PhpIntMax)
    ensures Get(a, k).None? && (k.StrKey? || k.i < a.nextFree) ==> r.nextFree == a.nextFree
  {
    match IndexOf(a.entries, k)
    case Some(i) =>
      var r := PhpArray(a.entries[i := Entry(k, v)], a.nextFree);
      assert r.entries[i] == Entry(k, v);
      GetAt(r, i);
      GetOthersAfterReplace(a, r, i, k);
      r
    case None =>
      var r := PhpArray(a.entries + [Entry(k, v)], NextAfter(a.nextFree, k));
      assert forall i :: 0 <= i < |a.entries| ==> KeyBelowNext(r.entries[i].key, r.nextFree) by {
        forall i | 0 <= i < |a.entries|
          ensures KeyBelowNext(r.entries[i].key, r.nextFree)
        {
          assert r.entries[i] == a.entries[i];
          assert KeyBelowNext(a.entries[i].key, a.nextFree);
        }
      }
      assert r.entries[|a.entries|] == Entry(k, v);
      GetAt(r, |a.entries|);
      GetOthersAfterInsert(a, r, k, v);
      r
  }

  /** `$a[] = $v`: the value is added under the next free integer key.
      `None` stands for PHP's "next element is already occupied" failure. */
  function Append<V>(a: PhpArray<V>, v: V): (r: Option<PhpArray<V>>)
    requires Wf(a)
    ensures r.None? <==> a.nextFree == PhpIntMax && Get(a, IntKey(PhpIntMax)).Some?
    ensures r.Some? ==> Wf(r.value)
    ensures r.Some? ==> r.value.entries == a.entries + [Entry(IntKey(a.nextFree), v)]
    ensures r.Some? ==> forall i :: 0 <= i < |a.entries| && a.entries[i].key.IntKey? ==>
                          a.entries[i].key.i < a.nextFree
    ensures r.Some? ==> r.value.nextFree == (if a.nextFree < PhpIntMax then a.nextFree + 1 else PhpIntMax)
  {
    var k := IntKey(a.nextFree);
    if Get(a, k).Some? then
      None
    else
      Some(Set(a, k, v))
  }

  /** Writing the same value under the same key twice is the same as once. */
  lemma SetIdempotent<V>(a: PhpArray<V>, k: Key, v: V)
    requires Wf(a) && IsNormalKey(k)
    ensures Set(Set(a, k, v), k, v) == Set(a, k, v)
  {
  }
}
