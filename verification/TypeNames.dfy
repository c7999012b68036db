/** Qualified type names: `::` separates the qualifier from the short name. */
module TypeNames {

  predicate PairAt(s: string, i: int) {
    0 <= i < |s| - 1 && s[i] == ':' && s[i + 1] == ':'
  }

  /** `IsQualifiedName`. */
  predicate Qualified(s: string) {
    exists i | 0 <= i < |s| :: PairAt(s, i)
  }

  /** `rfind("::")` below `k`; -1 if there is none. */
  function LastPair(s: string, k: nat): (i: int)
    ensures -1 <= i < k
    ensures i >= 0 ==> PairAt(s, i)
    ensures forall j | i < j < k :: !PairAt(s, j)
  {
    if k == 0 then -1 else if PairAt(s, k - 1) then k - 1 else LastPair(s, k - 1)
  }

  /** `find_last_of(':')` below `k`; -1 if there is none. */
  function LastColon(s: string, k: nat): (i: int)
    requires k <= |s|
    ensures -1 <= i < k
    ensures i >= 0 ==> s[i] == ':'
    ensures forall j | i < j < k :: s[j] != ':'
  {
    if k == 0 then -1 else if s[k - 1] == ':' then k - 1 else LastColon(s, k - 1)
  }

  /** What follows the last `::`. */
  function ShortName(s: string): string {
    var pos := LastPair(s, |s|);
    if pos < 0 then s else s[pos + 2..]
  }

  /** `BpExtractBaseName`: what follows the last colon. */
  function BaseName(s: string): string {
    s[LastColon(s, |s|) + 1..]
  }

  lemma {:induction false} ShortIsShort(s: string)
    ensures !Qualified(ShortName(s)) && ShortName(ShortName(s)) == ShortName(s)
    ensures !Qualified(s) <==> ShortName(s) == s
  {
    var pos, r := LastPair(s, |s|), ShortName(s);
    forall i | 0 <= i < |r| ensures !PairAt(r, i) {
      if pos >= 0 && PairAt(r, i) {
        assert PairAt(s, pos + 2 + i);
      }
    }
    assert LastPair(r, |r|) < 0;
    if pos >= 0 {
      assert PairAt(s, pos);
    }
  }

  /** Cutting off the qualifier first makes no difference to the base name. */
  lemma {:induction false} BaseOfShort(s: string)
    ensures BaseName(ShortName(s)) == BaseName(s)
  {
  }

  /** The short name is what stands behind the last `::`, or the whole name. */
  lemma {:induction false} ShortNameMeans(s: string, q: string, short: string)
    ensures s == q + "::" + short && !Qualified(short) && (short == "" || short[0] != ':') ==> ShortName(s) == short
    ensures !Qualified(s) ==> ShortName(s) == s
  {
    if s == q + "::" + short && !Qualified(short) && (short == "" || short[0] != ':') {
      assert PairAt(s, |q|);
      var pos := LastPair(s, |s|);
      if pos > |q| + 1 {
        assert PairAt(short, pos - |q| - 2);
      }
    }
  }
}
