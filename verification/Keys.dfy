/** The keys under which the server stores objects (server/db/keys.go). */
module Keys {
  import opened Lists
  import opened Metatypes
  import opened Sequences

  const D: Byte := 100
  const COLON: Byte := 58
  const AT: Byte := 64
  const UNDERSCORE: Byte := 95
  const DOLLAR: Byte := 36
  const SEQUENCE_SIZE: nat := 8

  // ---------------------------------------------------------------- sequence numbers

  /** The n low bytes of a number, the lowest first. */
  function LittleEndian(x: nat, n: nat): (r: Bytes)
    ensures |r| == n
  {
    if n == 0 then [] else [x % 256] + LittleEndian(x / 256, n - 1)
  }

  function Pow256(n: nat): nat { if n == 0 then 1 else 256 * Pow256(n - 1) }

  lemma {:induction false} LittleEndianValue(x: nat, n: nat)
    requires x < Pow256(n)
    ensures FromDigits(LittleEndian(x, n)) == x
  {
    if n > 0 {
      LittleEndianValue(x / 256, n - 1);
    }
  }

  /** Numbers of eight bytes are told apart by their bytes. */
  lemma {:induction false} LittleEndianInjective(x: nat, y: nat, n: nat)
    requires x < Pow256(n) && y < Pow256(n) && LittleEndian(x, n) == LittleEndian(y, n)
    ensures x == y
  {
    LittleEndianValue(x, n);
    LittleEndianValue(y, n);
  }

  // ---------------------------------------------------------------- keys

  function DataScopeKey(name: Bytes): Bytes { [D, COLON] + name + [COLON] }

  function DataKey(name: Bytes, genKey: Bytes): Bytes { [D, COLON] + name + [COLON] + genKey }

  function NamespaceKey(name: Bytes): Bytes { [AT, COLON] + name }

  /** A key that is not found when listing by a prefix. */
  function UnlistedKey(key: Bytes): Bytes { [UNDERSCORE, UNDERSCORE] + key }

  const STATS_KEY: Bytes := [DOLLAR]

  function ScopedSequenceKey(scope: Bytes, number: nat): Bytes { scope + LittleEndian(number, SEQUENCE_SIZE) }

  method MakeDataScopeKey(name: Bytes) returns (r: Bytes)
    ensures r == DataScopeKey(name)
  {
    var key := new Byte[|name| + 3](_ => 0);
    key[0], key[1] := D, COLON;
    CopyAt(key, 2, name);
    key[key.Length - 1] := COLON;
    r := key[..];
  }

  method MakeDataKey(name: Bytes, genKey: Bytes) returns (r: Bytes)
    ensures r == DataKey(name, genKey)
  {
    var n := |name|;
    var key := new Byte[n + |genKey| + 3](_ => 0);
    key[0], key[1] := D, COLON;
    CopyAt(key, 2, name);
    key[n + 2] := COLON;
    CopyAt(key, n + 3, genKey);
    r := key[..];
  }

  method MakeNamespaceKey(name: Bytes) returns (r: Bytes)
    ensures r == NamespaceKey(name)
  {
    var key := new Byte[|name| + 2](_ => 0);
    key[0], key[1] := AT, COLON;
    CopyAt(key, 2, name);
    r := key[..];
  }

  method MakeUnlistedKey(key: Bytes) returns (r: Bytes)
    ensures r == UnlistedKey(key)
  {
    var outputKey := new Byte[|key| + 2](_ => 0);
    outputKey[0], outputKey[1] := UNDERSCORE, UNDERSCORE;
    CopyAt(outputKey, 2, key);
    r := outputKey[..];
  }

  method MakeScopedSequenceKey(scope: Bytes, number: nat) returns (r: Bytes)
    ensures r == ScopedSequenceKey(scope, number)
  {
    var key := new Byte[|scope| + SEQUENCE_SIZE](_ => 0);
    CopyAt(key, 0, scope);
    CopyAt(key, |scope|, LittleEndian(number, SEQUENCE_SIZE));
    r := key[..];
  }

  /** A number issued in the scope of a label makes a data key of that label. */
  lemma {:induction false} SequenceKeyIsDataKey(name: Bytes, number: nat)
    ensures ScopedSequenceKey(DataScopeKey(name), number) == DataKey(name, LittleEndian(number, SEQUENCE_SIZE))
  {
  }

  /**
   * Labels may contain colons, so equal data keys have equal parts if and only if the generated parts are of
   * the same length, which all sequence numbers are.
   */
  lemma DataKeyInjective(l: Bytes, k: Bytes, l': Bytes, k': Bytes)
    requires DataKey(l, k) == DataKey(l', k')
    ensures l == l' && k == k' <==> |k| == |k'|
  {
    if |k| == |k'| {
      var a, b := DataKey(l, k), DataKey(l', k');
      assert |l| == |l'|;
      assert l == a[2..2 + |l|] && l' == b[2..2 + |l|];
      assert k == a[3 + |l|..] && k' == b[3 + |l|..];
    }
  }

  /**
   * Objects, namespaces, the stored numbers of sequences and the statistics never share a key, whatever the
   * labels, and each namespace and each sequence has a key of its own.
   */
  lemma KindsApart(l: Bytes, genKey: Bytes, m: Bytes, scope: Bytes, n: Bytes, other: Bytes)
    ensures DataKey(l, genKey) != NamespaceKey(m) && DataKey(l, genKey) != UnlistedKey(scope)
    ensures NamespaceKey(m) != UnlistedKey(scope)
    ensures STATS_KEY != DataKey(l, genKey) && STATS_KEY != NamespaceKey(m) && STATS_KEY != UnlistedKey(scope)
    ensures NamespaceKey(m) == NamespaceKey(n) <==> m == n
    ensures UnlistedKey(DataScopeKey(l)) == UnlistedKey(DataScopeKey(other)) <==> l == other
  {
    assert DataKey(l, genKey)[0] == D && NamespaceKey(m)[0] == AT && UnlistedKey(scope)[0] == UNDERSCORE;
    assert NamespaceKey(m)[2..] == m && NamespaceKey(n)[2..] == n;
    var a, b := UnlistedKey(DataScopeKey(l)), UnlistedKey(DataScopeKey(other));
    assert a[4..|a| - 1] == l && b[4..|b| - 1] == other;
  }

  /** Wherever a colon stands, the label may end before it or not. */
  lemma DataKeyAmbiguity(l: Bytes, a: Bytes, b: Bytes)
    ensures DataKey(l, a + [COLON] + b) == DataKey(l + [COLON] + a, b)
  {
    assert [COLON] + (a + [COLON] + b) == ([COLON] + a) + ([COLON] + b);
  }

  /** The issue is for the objects of some label, and its number has 64 bits. */
  ghost predicate ForData(x: Issue) {
    x.number < Pow256(SEQUENCE_SIZE) && exists name :: x.scope == DataScopeKey(name)
  }

  function KeyOf(x: Issue): Bytes { ScopedSequenceKey(x.scope, x.number) }

  /** Keys made for the objects of labels are told apart by what they were issued for. */
  lemma KeyInjective(x: Issue, y: Issue)
    requires ForData(x) && ForData(y) && KeyOf(x) == KeyOf(y)
    ensures x == y
  {
    var l :| x.scope == DataScopeKey(l);
    var l' :| y.scope == DataScopeKey(l');
    SequenceKeyIsDataKey(l, x.number);
    SequenceKeyIsDataKey(l', y.number);
    DataKeyInjective(l, LittleEndian(x.number, SEQUENCE_SIZE), l', LittleEndian(y.number, SEQUENCE_SIZE));
    LittleEndianInjective(x.number, y.number, SEQUENCE_SIZE);
  }

  /**
   * Creating never overwrites: over every run of the sequence cache without a lost commit, all keys made
   * for the objects of all labels are different, also from keys of objects that were deleted.
   */
  lemma {:induction false} CreateNeverOverwrites(hash: Bytes -> nat, run: seq<Action>, i: nat, j: nat)
    requires Clean(hash, Start(), run)
    requires
      var issued := After(hash, Start(), run).issued;
      i < j < |issued| && ForData(issued[i]) && ForData(issued[j])
    ensures var issued := After(hash, Start(), run).issued; KeyOf(issued[i]) != KeyOf(issued[j])
  {
    NoNumberTwice(hash, run);
    var issued := After(hash, Start(), run).issued;
    if KeyOf(issued[i]) == KeyOf(issued[j]) {
      KeyInjective(issued[i], issued[j]);
    }
  }

  /** With one lost commit it does: two objects of the same label get the same key. */
  lemma LostCommitOverwrites(hash: Bytes -> nat, name: Bytes) returns (more: seq<Action>, i: nat, j: nat)
    ensures
      var scope := DataScopeKey(name);
      var s := After(hash, Start(), Repeat(Increment(scope, GOOD), BANDWIDTH));
      var issued := After(hash, Next(hash, s, Increment(scope, Fate(true, Lost, true))), more).issued;
      FaultFree(more) && i < j < |issued| && KeyOf(issued[i]) == KeyOf(issued[j])
  {
    var scope := DataScopeKey(name);
    more := OneLostCommitDoubles(hash, scope);
    var s := After(hash, Start(), Repeat(Increment(scope, GOOD), BANDWIDTH));
    var issued := After(hash, Next(hash, s, Increment(scope, Fate(true, Lost, true))), more).issued;
    i, j :| 0 <= i < j < |issued| && issued[i] == issued[j];
  }
}
