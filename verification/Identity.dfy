/** Silo and grain identities (`pyleans/identity.py`, `pyleans/cluster/identity.py`). */
module Identity {
  import opened Wrappers
  import opened Text

  datatype GrainId = GrainId(grainType: string, key: string)

  datatype SiloAddress = SiloAddress(host: string, port: int, epoch: int)

  function SiloId(a: SiloAddress): string {
    a.host + ":" + IntText(a.port) + ":" + IntText(a.epoch)
  }

  /** Position of the last ':' in `s`, or -1. */
  function LastColon(s: string): (i: int)
    ensures -1 <= i < |s|
    ensures i >= 0 ==> s[i] == ':'
    ensures forall j :: i < j < |s| ==> s[j] != ':'
  {
    if s == [] then -1
    else if s[|s| - 1] == ':' then |s| - 1
    else LastColon(s[..|s| - 1])
  }

  /** `SiloAddress.from_silo_id`; `None` stands for `ValueError`. */
  function FromSiloId(s: string): Option<SiloAddress> {
    var j := LastColon(s);
    if j < 0 then None else
    var i := LastColon(s[..j]);
    if i < 0 then None else
    match (ParseInt(s[i + 1..j]), ParseInt(s[j + 1..]))
    case (Some(port), Some(epoch)) => Some(SiloAddress(s[..i], port, epoch))
    case _ => None
  }

  lemma {:induction false} LastColonOfJoin(left: string, right: string)
    requires ':' !in right
    ensures LastColon(left + ":" + right) == |left|
  {
    var s := left + ":" + right;
    if right != [] {
      var shorter := right[..|right| - 1];
      LastColonOfJoin(left, shorter);
      assert s[|s| - 1] == right[|right| - 1];
      assert s[..|s| - 1] == left + ":" + shorter;
    }
  }

  /** `from_silo_id` inverts `silo_id`, for every host, even one that contains colons. */
  lemma FromSiloIdInvertsSiloId(a: SiloAddress)
    ensures FromSiloId(SiloId(a)) == Some(a)
  {
    var p, e := IntText(a.port), IntText(a.epoch);
    var left := a.host + ":" + p;
    var s := left + ":" + e;
    assert s == SiloId(a);
    LastColonOfJoin(left, e);
    LastColonOfJoin(a.host, p);
    assert s[..|left|] == left && s[|left| + 1..] == e;
    assert s[|a.host| + 1..|left|] == p && s[..|a.host|] == a.host;
    ParseIntText(a.port);
    ParseIntText(a.epoch);
  }

  /** `s` is `host:port:epoch` with numbers that `int` reads. */
  predicate Spells(s: string, a: SiloAddress, port: string, epoch: string) {
    && s == a.host + ":" + port + ":" + epoch && ':' !in port && ':' !in epoch
    && ParseInt(port) == Some(a.port) && ParseInt(epoch) == Some(a.epoch)
  }

  lemma SpeltIsParsed(s: string, a: SiloAddress, port: string, epoch: string)
    requires Spells(s, a, port, epoch)
    ensures FromSiloId(s) == Some(a)
  {
    hide ParseInt;
    var left := a.host + ":" + port;
    LastColonOfJoin(left, epoch);
    LastColonOfJoin(a.host, port);
    hide LastColon;
    assert s == left + ":" + epoch && s[..|left|] == left;
    assert s[|left| + 1..] == epoch && s[|a.host| + 1..|left|] == port && s[..|a.host|] == a.host;
  }

  lemma ParsedIsSpelt(s: string, a: SiloAddress)
    requires FromSiloId(s) == Some(a)
    ensures exists port, epoch :: Spells(s, a, port, epoch)
  {
    hide ParseInt, LastColon;
    var j := LastColon(s);
    var i := LastColon(s[..j]);
    var port, epoch := s[i + 1..j], s[j + 1..];
    assert s == s[..i] + ":" + port + ":" + epoch;
    assert Spells(s, a, port, epoch);
  }

  /** The parser accepts exactly what spells an address, and gives that address. */
  lemma FromSiloIdAccepts(s: string, a: SiloAddress)
    ensures FromSiloId(s) == Some(a) <==> exists port, epoch :: Spells(s, a, port, epoch)
  {
    hide FromSiloId, Spells;
    if FromSiloId(s) == Some(a) {
      ParsedIsSpelt(s, a);
    }
    if port, epoch :| Spells(s, a, port, epoch) {
      SpeltIsParsed(s, a, port, epoch);
    }
  }

  lemma SiloIdExample()
    ensures SiloId(SiloAddress("h", 7, 42)) == "h:7:42"
  {
    assert Decimal(4) == "4" && Decimal(42) == Decimal(4) + "2";
  }

  lemma SiloIdInjective(a: SiloAddress, b: SiloAddress)
    requires SiloId(a) == SiloId(b)
    ensures a == b
  {
    FromSiloIdInvertsSiloId(a);
    FromSiloIdInvertsSiloId(b);
  }

  /** `a < b` on addresses: the order of their silo ids. */
  predicate SiloLess(a: SiloAddress, b: SiloAddress) {
    Less(SiloId(a), SiloId(b))
  }

  /** Addresses are ordered as the characters of their ids are, a beginning coming first. */
  lemma SiloLessIsLexicographic(a: SiloAddress, b: SiloAddress)
    ensures SiloLess(a, b) <==> exists i: nat :: SmallerAt(SiloId(a), SiloId(b), i)
  {
    LessIsLexicographic(SiloId(a), SiloId(b));
  }

  /** Because `silo_id` is injective, its string order is a strict total order on addresses. */
  lemma SiloLessTotal(a: SiloAddress, b: SiloAddress)
    ensures !SiloLess(a, a)
    ensures !(SiloLess(a, b) && SiloLess(b, a))
    ensures a == b || SiloLess(a, b) || SiloLess(b, a)
  {
    LessTotal(SiloId(a), SiloId(b));
    if SiloId(a) == SiloId(b) {
      SiloIdInjective(a, b);
    }
  }

  lemma SiloLessTrans(a: SiloAddress, b: SiloAddress, c: SiloAddress)
    requires SiloLess(a, b) && SiloLess(b, c)
    ensures SiloLess(a, c)
  {
    LessTrans(SiloId(a), SiloId(b), SiloId(c));
  }
}
