/** Which of two hosts keeps a service instance that both probe for (section 8.2 of RFC 6762). */
module TieBreak {
  import opened Bytes
  import opened RecordWriter

  /** What a host claims for an instance. */
  datatype Claim = Claim(priority: u16, weight: u16, port: u16, host: seq<byte>)

  function Octets(x: u16): seq<byte> {
    [x / 256, x % 256]
  }

  /** The RDATA of an SRV record with an uncompressed name; a length is kept in a single byte. */
  function SrvData(c: Claim, domain: seq<byte>): (d: seq<byte>)
    ensures |d| == 9 + |c.host| + |domain|
  {
    Octets(c.priority) + Octets(c.weight) + Octets(c.port) + [LowByte(|c.host|)] + c.host
    + [LowByte(|domain|)] + domain + [0]
  }

  /** memcmp of two runs of the same length. */
  function Compare(a: seq<byte>, b: seq<byte>): int
    requires |a| == |b|
  {
    if a == [] then 0
    else if a[0] < b[0] then -1
    else if a[0] > b[0] then 1
    else Compare(a[1..], b[1..])
  }

  datatype Verdict = WeWin | Same | TheyWin

  /** What our host makes of their claim: the longer data wins, and among data of one length the greater. */
  function Judge(ours: Claim, theirs: Claim, domain: seq<byte>): Verdict {
    var a, b := SrvData(ours, LOCAL_DOMAIN), SrvData(theirs, domain);
    if ours.host == [] then Same
    else if |b| > |a| then TheyWin
    else if |b| < |a| then WeWin
    else if Compare(a, b) > 0 then WeWin
    else if Compare(a, b) < 0 then TheyWin
    else Same
  }

  method CheckSrvCollision(ours: Claim, theirs: Claim, domain: seq<byte>) returns (r: int)
    ensures r == match Judge(ours, theirs, domain) { case WeWin => -1 case Same => 0 case TheyWin => 1 }
  {
    if ours.host == [] {
      return 0;
    }
    var ourLen, theirLen := 14 + |ours.host|, 9 + |theirs.host| + |domain|;
    if theirLen > ourLen {
      return 1;
    } else if theirLen < ourLen {
      return -1;
    }
    var ourData := Octets(ours.priority) + Octets(ours.weight) + Octets(ours.port);
    ourData := ourData + [LowByte(|ours.host|)] + ours.host;
    ourData := ourData + [5] + LOCAL_DOMAIN;
    ourData := ourData + [0];
    var theirData := Octets(theirs.priority) + Octets(theirs.weight) + Octets(theirs.port);
    theirData := theirData + [LowByte(|theirs.host|)] + theirs.host;
    theirData := theirData + [LowByte(|domain|)] + domain;
    theirData := theirData + [0];
    assert ourData == SrvData(ours, LOCAL_DOMAIN) && theirData == SrvData(theirs, domain);
    var ret := Compare(ourData, theirData);
    if ret > 0 {
      return -1;
    } else if ret < 0 {
      return 1;
    }
    return 0;
  }

  // ---------------------------------------------------------------------------------------------------------
  // A strict total order

  lemma {:induction false} CompareSigns(a: seq<byte>, b: seq<byte>)
    requires |a| == |b|
    ensures Compare(b, a) == -Compare(a, b) && (Compare(a, b) == 0 <==> a == b)
  {
    if a == [] {
    } else {
      CompareSigns(a[1..], b[1..]);
      assert a == [a[0]] + a[1..] && b == [b[0]] + b[1..];
    }
  }

  lemma {:induction false} CompareTrans(a: seq<byte>, b: seq<byte>, c: seq<byte>)
    requires |a| == |b| == |c| && Compare(a, b) > 0 && Compare(b, c) > 0
    ensures Compare(a, c) > 0
  {
    if a[0] != b[0] || b[0] != c[0] {
    } else {
      CompareTrans(a[1..], b[1..], c[1..]);
    }
  }

  lemma OctetsDiffer(x: u16, y: u16)
    requires Octets(x) == Octets(y)
    ensures x == y
  {
    assert x / 256 == Octets(x)[0] && x % 256 == Octets(x)[1];
    assert y / 256 == Octets(y)[0] && y % 256 == Octets(y)[1];
  }

  /** The data tells the claims apart. */
  lemma SameData(a: Claim, b: Claim, domain: seq<byte>)
    requires SrvData(a, domain) == SrvData(b, domain)
    ensures a == b
  {
    var d, e := SrvData(a, domain), SrvData(b, domain);
    var n := |a.host|;
    assert |b.host| == n;
    assert d[..2] == Octets(a.priority) && d[2..4] == Octets(a.weight) && d[4..6] == Octets(a.port);
    assert e[..2] == Octets(b.priority) && e[2..4] == Octets(b.weight) && e[4..6] == Octets(b.port);
    OctetsDiffer(a.priority, b.priority);
    OctetsDiffer(a.weight, b.weight);
    OctetsDiffer(a.port, b.port);
    assert d[7..7 + n] == a.host && e[7..7 + n] == b.host;
  }

  function Opposite(v: Verdict): Verdict {
    match v
    case WeWin => TheyWin
    case Same => Same
    case TheyWin => WeWin
  }

  /** Two hosts that judge each other's claims come to opposite verdicts. */
  lemma OppositeVerdicts(a: Claim, b: Claim)
    requires a.host != [] && b.host != []
    ensures Judge(b, a, LOCAL_DOMAIN) == Opposite(Judge(a, b, LOCAL_DOMAIN))
  {
    var d, e := SrvData(a, LOCAL_DOMAIN), SrvData(b, LOCAL_DOMAIN);
    if |d| == |e| {
      CompareSigns(d, e);
    }
  }

  /** There is no conflict exactly when the claims are the same. */
  lemma SameVerdict(a: Claim, b: Claim)
    requires a.host != [] && b.host != []
    ensures Judge(a, b, LOCAL_DOMAIN) == Same <==> a == b
  {
    var d, e := SrvData(a, LOCAL_DOMAIN), SrvData(b, LOCAL_DOMAIN);
    if |d| == |e| {
      CompareSigns(d, e);
      if d == e {
        SameData(a, b, LOCAL_DOMAIN);
      }
    }
  }

  /** A host that wins against a winner wins. */
  lemma VerdictsChain(a: Claim, b: Claim, c: Claim)
    requires a.host != [] && b.host != [] && c.host != []
    requires Judge(a, b, LOCAL_DOMAIN) == WeWin && Judge(b, c, LOCAL_DOMAIN) == WeWin
    ensures Judge(a, c, LOCAL_DOMAIN) == WeWin
  {
    var d, e, f := SrvData(a, LOCAL_DOMAIN), SrvData(b, LOCAL_DOMAIN), SrvData(c, LOCAL_DOMAIN);
    if |d| == |e| == |f| {
      CompareTrans(d, e, f);
    }
  }

  // ---------------------------------------------------------------------------------------------------------
  // Against the order of the RFC

  /** The order of section 8.2 of RFC 6762: byte by byte, and if one runs out first the longer is the greater. */
  function Lexicographic(a: seq<byte>, b: seq<byte>): Verdict {
    if a == [] then (if b == [] then Same else TheyWin)
    else if b == [] then WeWin
    else if a[0] > b[0] then WeWin
    else if a[0] < b[0] then TheyWin
    else Lexicographic(a[1..], b[1..])
  }

  lemma {:induction false} LexicographicCompare(a: seq<byte>, b: seq<byte>)
    requires |a| == |b|
    ensures Lexicographic(a, b) == if Compare(a, b) > 0 then WeWin else if Compare(a, b) < 0 then TheyWin else Same
  {
    if a == [] {
    } else {
      LexicographicCompare(a[1..], b[1..]);
    }
  }

  /** The fields in front of the host name. */
  function Fields(c: Claim): (f: seq<byte>)
    ensures |f| == 6
  {
    Octets(c.priority) + Octets(c.weight) + Octets(c.port)
  }

  /**
   * The verdict is that of the RFC if and only if the host names have the same length, or the fields in front of
   * the name do not speak for the host with the shorter one.
   */
  lemma AgainstRfc(a: Claim, b: Claim)
    requires 0 < |a.host| < 256 && 0 < |b.host| < 256
    ensures Judge(a, b, LOCAL_DOMAIN) == Lexicographic(SrvData(a, LOCAL_DOMAIN), SrvData(b, LOCAL_DOMAIN))
       <==> || |a.host| == |b.host|
            || Lexicographic(Fields(a), Fields(b)) != (if |a.host| < |b.host| then WeWin else TheyWin)
  {
    var d, e := SrvData(a, LOCAL_DOMAIN), SrvData(b, LOCAL_DOMAIN);
    if |a.host| == |b.host| {
      LexicographicCompare(d, e);
    } else {
      assert d[..6] == Fields(a) && e[..6] == Fields(b);
      assert d[6] == |a.host| && e[6] == |b.host|;
      LexicographicPrefix(d, e, 6);
    }
  }

  /** Priority 1 on host `a` against priority 0 on host `bb`: the code lets the second win, the RFC the first. */
  lemma ShorterHostLoses()
    ensures var a, b := Claim(1, 0, 0, [97]), Claim(0, 0, 0, [98, 98]);
      && Judge(a, b, LOCAL_DOMAIN) == TheyWin
      && Lexicographic(SrvData(a, LOCAL_DOMAIN), SrvData(b, LOCAL_DOMAIN)) == WeWin
  {
    var d, e := SrvData(Claim(1, 0, 0, [97]), LOCAL_DOMAIN), SrvData(Claim(0, 0, 0, [98, 98]), LOCAL_DOMAIN);
    assert d[0] == e[0] == 0 && d[1] == 1 && e[1] == 0;
    assert d[1..][0] == d[1] && e[1..][0] == e[1];
  }

  lemma {:induction false} LexicographicPrefix(a: seq<byte>, b: seq<byte>, k: nat)
    requires k < |a| && k < |b| && a[k] != b[k]
    ensures Lexicographic(a, b)
         == if a[..k] == b[..k] then (if a[k] > b[k] then WeWin else TheyWin) else Lexicographic(a[..k], b[..k])
    ensures Lexicographic(a[..k], b[..k]) == Same <==> a[..k] == b[..k]
  {
    if k == 0 {
    } else {
      assert a[..k] == [a[0]] + a[1..][..k - 1] && b[..k] == [b[0]] + b[1..][..k - 1];
      assert a[..k][1..] == a[1..][..k - 1] && b[..k][1..] == b[1..][..k - 1];
      LexicographicPrefix(a[1..], b[1..], k - 1);
    }
  }
}
