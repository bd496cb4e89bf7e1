/** Hashed public keys (src/pubkey.rs) and the mDNS names made from them (src/registries/mdns.rs). */
module PeerName {
  import opened Common

  // ---------- Hashed public keys ----------

  /** Size of the hash buffer, OpenSSL's largest digest. */
  const MAX_HASH: nat := 64

  function Zeros(n: nat): (z: Bytes)
    ensures |z| == n && forall i :: 0 <= i < n ==> z[i] == 0
  {
    if n == 0 then [] else Zeros(n - 1) + [0]
  }

  /** A hash of `len` bytes in a buffer of fixed size. */
  datatype PubKeyHash = PubKeyHash(buf: Bytes, len: nat) {
    predicate Valid() { |buf| == MAX_HASH && len <= MAX_HASH && buf[len..] == Zeros(MAX_HASH - len) }

    /** The dereferenced hash; this is also what is serialised. */
    function Content(): Bytes
      requires Valid()
    {
      buf[..len]
    }
  }

  function FromHashed(hashed: Bytes): (h: Option<PubKeyHash>)
    ensures h.Some? <==> |hashed| <= MAX_HASH
    ensures h.Some? ==> h.value.Valid() && h.value.Content() == hashed
  {
    if |hashed| > MAX_HASH then None
    else
      var buf := hashed + Zeros(MAX_HASH - |hashed|);
      assert buf[|hashed|..] == Zeros(MAX_HASH - |hashed|);
      Some(PubKeyHash(buf, |hashed|))
  }

  /** The constructor proper: a zeroed buffer whose front receives the hash. */
  method FromHashedChecked(hashed: Bytes) returns (h: PubKeyHash)
    requires |hashed| <= MAX_HASH
    ensures Some(h) == FromHashed(hashed)
  {
    var buf := new Byte[MAX_HASH](_ => 0);
    for i := 0 to |hashed|
      invariant buf[..i] == hashed[..i]
      invariant forall j :: |hashed| <= j < MAX_HASH ==> buf[j] == 0
    {
      buf[i] := hashed[i];
    }
    assert buf[..] == hashed + Zeros(MAX_HASH - |hashed|);
    h := PubKeyHash(buf[..], |hashed|);
  }

  predicate Eq(a: PubKeyHash, b: PubKeyHash)
    requires a.Valid() && b.Valid()
  {
    a.len == b.len && a.buf[..a.len] == b.buf[..b.len]
  }

  datatype Ordering = Less | Equal | Greater

  /** Lexicographic comparison of byte strings. */
  function Compare(a: Bytes, b: Bytes): Ordering {
    if a == [] && b == [] then Equal
    else if a == [] then Less
    else if b == [] then Greater
    else if a[0] < b[0] then Less
    else if a[0] > b[0] then Greater
    else Compare(a[1..], b[1..])
  }

  /** `Ord` compares whole buffers. */
  function Cmp(a: PubKeyHash, b: PubKeyHash): Ordering { Compare(a.buf, b.buf) }

  lemma {:induction false} CompareEqual(a: Bytes, b: Bytes)
    ensures Compare(a, b) == Equal <==> a == b
  {
    if a != [] && b != [] {
      CompareEqual(a[1..], b[1..]);
      assert a == [a[0]] + a[1..] && b == [b[0]] + b[1..];
    }
  }

  /** a and b agree before position k, and there a ends and b does not, or a has the smaller byte. */
  predicate SmallerAt(a: Bytes, b: Bytes, k: nat) {
    && k <= |a| && k < |b| && a[..k] == b[..k] && (k == |a| || a[k] < b[k])
  }

  lemma SmallerAtNext(a: Bytes, b: Bytes, k: nat)
    requires a != [] && b != [] && a[0] == b[0]
    ensures SmallerAt(a, b, k + 1) <==> SmallerAt(a[1..], b[1..], k)
  {
    if k + 1 <= |a| && k + 1 < |b| {
      assert a[..k + 1] == [a[0]] + a[1..][..k] && b[..k + 1] == [b[0]] + b[1..][..k];
      assert a[..k + 1] == b[..k + 1] ==> a[1..][..k] == a[..k + 1][1..] == b[..k + 1][1..] == b[1..][..k];
    }
  }

  lemma FirstDiffers(a: Bytes, b: Bytes, k: nat)
    requires a != [] && b != [] && a[0] != b[0] && SmallerAt(a, b, k)
    ensures k == 0 && a[0] < b[0]
  {
  }

  /** The order is the lexicographic one, and it is the same from both sides. */
  lemma {:induction false} CompareIsLexicographic(a: Bytes, b: Bytes)
    ensures Compare(a, b) == Less <==> exists k :: SmallerAt(a, b, k)
    ensures Compare(a, b) == Greater <==> Compare(b, a) == Less
    decreases |a|
  {
    if a == [] || b == [] {
      if a == [] && b != [] { assert SmallerAt(a, b, 0); }
    } else if a[0] != b[0] {
      if a[0] < b[0] { assert SmallerAt(a, b, 0); }
      if k :| SmallerAt(a, b, k) { FirstDiffers(a, b, k); }
    } else {
      CompareIsLexicographic(a[1..], b[1..]);
      if k: nat :| SmallerAt(a[1..], b[1..], k) {
        SmallerAtNext(a, b, k);
        assert SmallerAt(a, b, k + 1);
      }
      if k: nat :| SmallerAt(a, b, k) {
        assert k > 0;
        SmallerAtNext(a, b, k - 1);
        assert SmallerAt(a[1..], b[1..], k - 1);
      }
    }
  }

  /**
   Equal hashes have equal buffers, so they hash alike and compare as equal. The order calls two hashes
   equal that are not exactly if they differ in length and the longer one continues in zero bytes.
   */
  lemma EqVersusCmp(a: PubKeyHash, b: PubKeyHash)
    requires a.Valid() && b.Valid()
    ensures Eq(a, b) ==> a.buf == b.buf && Cmp(a, b) == Equal
    ensures Cmp(a, b) == Equal && !Eq(a, b) <==> a.len != b.len && a.buf == b.buf
    ensures Eq(a, b) <==> a.Content() == b.Content()
  {
    CompareEqual(a.buf, b.buf);
    if a.len == b.len {
      assert a.buf == a.buf[..a.len] + a.buf[a.len..] && b.buf == b.buf[..b.len] + b.buf[b.len..];
    }
  }

  /** The zero byte and two zero bytes are such a pair. */
  lemma CmpEqualWithoutEq() returns (a: PubKeyHash, b: PubKeyHash)
    ensures a.Valid() && b.Valid() && Cmp(a, b) == Equal && !Eq(a, b)
  {
    a, b := FromHashed([0]).value, FromHashed([0, 0]).value;
    assert [0] + Zeros(63) == [0, 0] + Zeros(62);
    EqVersusCmp(a, b);
  }

  // ---------- Hexadecimal ----------

  const DIGITS: string := "0123456789ABCDEF"

  function HexDigit(n: nat): (c: char)
    requires n < 16
    ensures IsHex(c)
  {
    DIGITS[n]
  }

  /** Printed digits are upper case. */
  predicate IsHex(c: char) { '0' <= c <= '9' || 'A' <= c <= 'F' }

  /** Parsing accepts both cases. */
  function HexValue(c: char): (v: Option<nat>)
    ensures v.Some? <==> '0' <= c <= '9' || 'A' <= c <= 'F' || 'a' <= c <= 'f'
    ensures v.Some? ==> v.value < 16
  {
    if '0' <= c <= '9' then Some((c - '0') as nat)
    else if 'A' <= c <= 'F' then Some((c - 'A') as nat + 10)
    else if 'a' <= c <= 'f' then Some((c - 'a') as nat + 10)
    else None
  }

  lemma DigitRoundTrip(n: nat)
    requires n < 16
    ensures HexValue(HexDigit(n)) == Some(n)
  {
  }

  function EncodeByte(b: Byte): string { [HexDigit(b / 16), HexDigit(b % 16)] }

  function EncodeHex(bytes: Bytes): (s: string)
    ensures |s| == 2 * |bytes|
    ensures forall i :: 0 <= i < |s| ==> IsHex(s[i])
  {
    if bytes == [] then [] else EncodeByte(bytes[0]) + EncodeHex(bytes[1..])
  }

  /** Fails on an odd number of characters and on characters that are not digits. */
  function DecodeHex(s: string): Option<Bytes> {
    if s == [] then Some([])
    else if |s| == 1 then None
    else
      var hi, lo, rest := HexValue(s[0]), HexValue(s[1]), DecodeHex(s[2..]);
      if hi.None? || lo.None? || rest.None? then None else Some([16 * hi.value + lo.value] + rest.value)
  }

  lemma DecodePair(c: char, d: char, rest: string)
    requires HexValue(c).Some? && HexValue(d).Some? && DecodeHex(rest).Some?
    ensures DecodeHex([c, d] + rest) == Some([16 * HexValue(c).value + HexValue(d).value] + DecodeHex(rest).value)
  {
    hide HexValue;
    var s := [c, d] + rest;
    assert s[0] == c && s[1] == d && s[2..] == rest;
  }

  lemma DecodeFirstByte(b: Byte, rest: string)
    requires DecodeHex(rest).Some?
    ensures DecodeHex(EncodeByte(b) + rest) == Some([b] + DecodeHex(rest).value)
  {
    hide DecodeHex;
    var hi: nat, lo: nat := b / 16, b % 16;
    assert b == 16 * hi + lo;
    DigitRoundTrip(hi);
    DigitRoundTrip(lo);
    hide HexDigit, HexValue;
    DecodePair(HexDigit(hi), HexDigit(lo), rest);
  }

  /** Parsing succeeds exactly on an even number of digits, of either case. */
  lemma {:induction false} DecodesIffHex(s: string)
    ensures DecodeHex(s).Some? <==> |s| % 2 == 0 && forall i :: 0 <= i < |s| ==> HexValue(s[i]).Some?
    decreases |s|
  {
    hide HexValue;
    if |s| >= 2 {
      DecodesIffHex(s[2..]);
      assert forall i :: 2 <= i < |s| ==> s[i] == s[2..][i - 2];
      assert forall i :: 0 <= i < |s[2..]| ==> s[2..][i] == s[i + 2];
    }
  }

  /** A lower-case digit counts like the upper-case one. */
  lemma CaseDoesNotMatter(n: nat)
    requires 10 <= n < 16
    ensures HexValue('a' + (n - 10) as char) == Some(n) == HexValue(HexDigit(n))
  {
  }

  lemma {:induction false} HexRoundTrip(bytes: Bytes)
    ensures DecodeHex(EncodeHex(bytes)) == Some(bytes)
  {
    if bytes != [] {
      HexRoundTrip(bytes[1..]);
      DecodeFirstByte(bytes[0], EncodeHex(bytes[1..]));
      assert [bytes[0]] + bytes[1..] == bytes;
    }
  }

  function FromHashedHex(s: string): Option<PubKeyHash> {
    var bytes := DecodeHex(s);
    if bytes.None? then None else FromHashed(bytes.value)
  }

  // ---------- Service and instance names ----------

  function ServiceName(configured: string): (name: string)
    ensures name != [] && name[0] == '_'
    ensures name == configured || name[1..] == configured
    ensures name == configured <==> configured != [] && configured[0] == '_'
  {
    if configured != [] && configured[0] == '_' then configured else "_" + configured
  }

  /** The two labels that carry the hash, halves of its hexadecimal form. */
  function Labels(h: PubKeyHash): (string, string)
    requires h.Valid()
  {
    var s := EncodeHex(h.Content());
    (s[..|s| / 2], s[|s| / 2..])
  }

  function InstanceName(h: PubKeyHash): string
    requires h.Valid()
  {
    Labels(h).0 + "." + Labels(h).1
  }

  /** The value of the PTR record with which the service announces itself under `recordName`. */
  function PtrValue(h: PubKeyHash, recordName: string): string
    requires h.Valid()
  {
    InstanceName(h) + ("." + recordName)
  }

  /** Position of the first occurrence of `pattern`. */
  function Find(s: string, pattern: string): (r: Option<nat>)
    ensures r.Some? ==> r.value <= |s| && pattern <= s[r.value..]
    ensures r.Some? ==> forall i :: 0 <= i < r.value ==> !(pattern <= s[i..])
    ensures r.None? ==> forall i :: 0 <= i <= |s| ==> !(pattern <= s[i..])
  {
    if pattern <= s then Some(0)
    else if s == [] then None
    else
      var r := Find(s[1..], pattern);
      assert forall i :: 0 < i <= |s| ==> s[i..] == s[1..][i - 1..];
      if r.Some? then Some(r.value + 1) else None
  }

  function WithoutDots(s: string): string {
    if s == [] then [] else (if s[0] == '.' then [] else [s[0]]) + WithoutDots(s[1..])
  }

  /** What a PTR record says: nothing of interest, or the peer that it names, if it parses. */
  function ParsePtr(value: string, recordName: string): Option<Option<PubKeyHash>> {
    var pos := Find(value, "." + recordName);
    if pos.None? then None else Some(FromHashedHex(WithoutDots(value[..pos.value])))
  }

  lemma {:induction false} WithoutDotsAppend(s: string, t: string)
    ensures WithoutDots(s + t) == WithoutDots(s) + WithoutDots(t)
  {
    if s == [] {
      assert s + t == t;
    } else {
      assert (s + t)[1..] == s[1..] + t;
      WithoutDotsAppend(s[1..], t);
    }
  }

  lemma {:induction false} WithoutDotsHex(s: string)
    requires forall i :: 0 <= i < |s| ==> IsHex(s[i])
    ensures WithoutDots(s) == s
  {
    if s != [] {
      WithoutDotsHex(s[1..]);
      assert s == [s[0]] + s[1..];
    }
  }

  lemma InstanceWithoutDots(h: PubKeyHash)
    requires h.Valid()
    ensures WithoutDots(InstanceName(h)) == EncodeHex(h.Content())
  {
    var s := EncodeHex(h.Content());
    SplitWithoutDots(s, |s| / 2);
  }

  lemma SplitWithoutDots(s: string, k: nat)
    requires k <= |s| && forall i :: 0 <= i < |s| ==> IsHex(s[i])
    ensures WithoutDots(s[..k] + "." + s[k..]) == s
  {
    WithoutDotsHex(s[..k]);
    WithoutDotsHex(s[k..]);
    JoinWithoutDots(s[..k], s[k..]);
    hide WithoutDots, IsHex;
    assert s[..k] + s[k..] == s;
  }

  lemma JoinWithoutDots(front: string, back: string)
    ensures WithoutDots(front + "." + back) == WithoutDots(front) + WithoutDots(back)
  {
    WithoutDotsAppend(front, ".");
    WithoutDotsAppend(front + ".", back);
    OnlyDot();
    hide WithoutDots;
    assert WithoutDots(front) + [] == WithoutDots(front);
  }

  lemma OnlyDot()
    ensures WithoutDots(".") == []
  {
  }

  /** A pattern that begins with ".\_" does not begin inside text without underscores. */
  lemma FoundBehind(front: string, pattern: string)
    requires |pattern| >= 2 && pattern[0] == '.' && pattern[1] == '_'
    requires forall i :: 0 <= i < |front| ==> front[i] != '_'
    ensures Find(front + pattern, pattern) == Some(|front|)
  {
    var s := front + pattern;
    forall i | 0 <= i < |front|
      ensures !(pattern <= s[i..])
    {
      assert s[i..][1] == s[i + 1] == (if i + 1 < |front| then front[i + 1] else '.');
    }
    assert s[|front|..] == pattern;
  }

  lemma InstanceHasNoUnderscore(h: PubKeyHash)
    requires h.Valid()
    ensures forall i :: 0 <= i < |InstanceName(h)| ==> InstanceName(h)[i] != '_'
  {
    var s := EncodeHex(h.Content());
    var (front, back) := Labels(h);
    assert forall i :: 0 <= i < |front| ==> front[i] == s[i];
    assert forall i :: 0 <= i < |back| ==> back[i] == s[|s| / 2 + i];
  }

  /** Announcing a hash and parsing the announcement gives the hash back. */
  lemma NameRoundTrip(h: PubKeyHash, recordName: string)
    requires h.Valid() && recordName != [] && recordName[0] == '_'
    ensures ParsePtr(PtrValue(h, recordName), recordName) == Some(Some(h))
  {
    InstanceHasNoUnderscore(h);
    FoundBehind(InstanceName(h), "." + recordName);
    assert PtrValue(h, recordName)[..|InstanceName(h)|] == InstanceName(h);
    InstanceWithoutDots(h);
    HexRoundTrip(h.Content());
    RebuildsFromContent(h);
  }

  lemma RebuildsFromContent(h: PubKeyHash)
    requires h.Valid()
    ensures FromHashed(h.Content()) == Some(h)
  {
    assert h.buf == h.Content() + Zeros(MAX_HASH - h.len);
  }

  /** Both labels stay within the 63 octets of section 2.3.4 of RFC 1035 exactly for hashes of at most 63 bytes. */
  lemma LabelsFitIffShort(h: PubKeyHash)
    requires h.Valid()
    ensures |Labels(h).0| <= 63 && |Labels(h).1| <= 63 <==> h.len <= 63
    ensures |InstanceName(h)| == 2 * h.len + 1 && InstanceName(h)[h.len] == '.'
  {
  }

  // ---------- Whole responses ----------

  datatype Record =
    | A(ip: nat) | AAAA(ip: nat)
    | SRV(port: nat)
    | PTR(name: string, value: string)
    | OtherRecord

  datatype DiscoveryResult = DiscoveryResult(peer: PubKeyHash, ports: seq<nat>, ips: seq<nat>)

  function Ports(records: seq<Record>): seq<nat> {
    if records == [] then [] else
    var last := records[|records| - 1];
    var before := Ports(records[..|records| - 1]);
    if last.SRV? then before + [last.port] else before
  }

  function Ips(records: seq<Record>): seq<nat> {
    if records == [] then [] else
    var last := records[|records| - 1];
    var before := Ips(records[..|records| - 1]);
    if last.A? || last.AAAA? then before + [last.ip] else before
  }

  /** The peer named last, as far as the records have been read. */
  function NamedPeer(records: seq<Record>): Option<PubKeyHash> {
    if records == [] then None else
    var before, last := NamedPeer(records[..|records| - 1]), records[|records| - 1];
    if !last.PTR? then before else
    var parsed := ParsePtr(last.value, last.name);
    if parsed.Some? then parsed.value else before
  }

  predicate Foreign(r: Record, service: string) { r.PTR? && !(service <= r.name) }

  /** Records are read one by one. */
  lemma OneMoreRecord(front: seq<Record>, r: Record)
    ensures NamedPeer(front + [r]) ==
      if r.PTR? && ParsePtr(r.value, r.name).Some? then ParsePtr(r.value, r.name).value else NamedPeer(front)
    ensures Ports(front + [r]) == if r.SRV? then Ports(front) + [r.port] else Ports(front)
    ensures Ips(front + [r]) == if r.A? || r.AAAA? then Ips(front) + [r.ip] else Ips(front)
  {
    hide ParsePtr;
    assert (front + [r])[..|front|] == front;
  }

  /** The last peer named with all ports and addresses, unless some PTR record belongs to another service. */
  function Parsed(records: seq<Record>, service: string): Option<DiscoveryResult> {
    var peer := NamedPeer(records);
    if (exists i :: 0 <= i < |records| && Foreign(records[i], service)) || peer.None? then None
    else Some(DiscoveryResult(peer.value, Ports(records), Ips(records)))
  }

  /** `DiscoveryResult::try_from`. */
  method TryFrom(records: seq<Record>, service: string) returns (r: Option<DiscoveryResult>)
    ensures r == Parsed(records, service)
  {
    var peer: Option<PubKeyHash> := None;
    var ports, ips := [], [];
    for k := 0 to |records|
      invariant forall i :: 0 <= i < k ==> !Foreign(records[i], service)
      invariant peer == NamedPeer(records[..k]) && ports == Ports(records[..k]) && ips == Ips(records[..k])
    {
      assert records[..k + 1] == records[..k] + [records[k]];
      OneMoreRecord(records[..k], records[k]);
      hide NamedPeer, Ports, Ips, ParsePtr;
      match records[k] {
        case A(ip) => ips := ips + [ip];
        case AAAA(ip) => ips := ips + [ip];
        case SRV(port) => ports := ports + [port];
        case PTR(name, value) =>
          if !(service <= name) {
            assert Foreign(records[k], service);
            return None;
          }
          var parsed := ParsePtr(value, name);
          if parsed.Some? {
            peer := parsed.value;
          }
        case OtherRecord =>
      }
    }
    assert records[..|records|] == records;
    r := if peer.Some? then Some(DiscoveryResult(peer.value, ports, ips)) else None;
  }

  predicate HasPtr(records: seq<Record>) { exists i :: 0 <= i < |records| && records[i].PTR? }

  predicate HasPort(records: seq<Record>) { exists i :: 0 <= i < |records| && records[i].SRV? }

  predicate HasIp(records: seq<Record>) { exists i :: 0 <= i < |records| && (records[i].A? || records[i].AAAA?) }

  lemma OneMoreKind(front: seq<Record>, r: Record)
    ensures HasPtr(front + [r]) <==> HasPtr(front) || r.PTR?
    ensures HasPort(front + [r]) <==> HasPort(front) || r.SRV?
    ensures HasIp(front + [r]) <==> HasIp(front) || r.A? || r.AAAA?
  {
    var records := front + [r];
    assert records[|front|] == r && forall i :: 0 <= i < |front| ==> records[i] == front[i];
  }

  /** Every PTR record of the response announces h. */
  predicate Announces(records: seq<Record>, h: PubKeyHash, recordName: string)
    requires h.Valid()
  {
    forall i :: 0 <= i < |records| && records[i].PTR? ==> records[i] == PTR(recordName, PtrValue(h, recordName))
  }

  /** A response in which every PTR record announces h names h, whatever the other records are. */
  lemma {:induction false} ResponseNamesPeer(records: seq<Record>, h: PubKeyHash, recordName: string)
    requires h.Valid() && recordName != [] && recordName[0] == '_' && Announces(records, h, recordName)
    ensures NamedPeer(records) == if HasPtr(records) then Some(h) else None
  {
    if records != [] {
      var front, last := records[..|records| - 1], records[|records| - 1];
      assert records == front + [last];
      NameRoundTrip(h, recordName);
      AnnouncesFront(front, last, h, recordName);
      ResponseNamesPeer(front, h, recordName);
      OneMoreRecord(front, last);
      OneMoreKind(front, last);
      hide NamedPeer, HasPtr, HasPort, HasIp, Announces, Ports, Ips, ParsePtr, PtrValue;
    }
  }

  lemma AnnouncesFront(front: seq<Record>, last: Record, h: PubKeyHash, recordName: string)
    requires h.Valid() && Announces(front + [last], h, recordName)
    ensures Announces(front, h, recordName) && (last.PTR? ==> last == PTR(recordName, PtrValue(h, recordName)))
  {
    hide PtrValue;
    var records := front + [last];
    assert records[|front|] == last && forall i :: 0 <= i < |front| ==> records[i] == front[i];
  }

  /**
   From the configured service name through the announcement to the parsed peer: a response with at least one
   PTR record, all of which announce h under the service's own name in some domain, yields h with the
   response's ports and addresses.
   */
  lemma AnnouncedPeerIsParsed(configured: string, domain: string, h: PubKeyHash, records: seq<Record>)
    requires h.Valid() && HasPtr(records) && Announces(records, h, ServiceName(configured) + domain)
    ensures Parsed(records, ServiceName(configured)) == Some(DiscoveryResult(h, Ports(records), Ips(records)))
  {
    var service := ServiceName(configured);
    ResponseNamesPeer(records, h, service + domain);
    hide PtrValue, NamedPeer;
    forall i | 0 <= i < |records|
      ensures !Foreign(records[i], service)
    {
      assert records[i].PTR? ==> records[i].name == service + domain;
    }
  }

  lemma {:induction false} PortsAndIps(records: seq<Record>)
    ensures (Ports(records) != [] <==> HasPort(records)) && (Ips(records) != [] <==> HasIp(records))
  {
    if records != [] {
      var front, last := records[..|records| - 1], records[|records| - 1];
      assert records == front + [last];
      PortsAndIps(front);
      OneMoreRecord(front, last);
      OneMoreKind(front, last);
      hide HasPtr, HasPort, HasIp, NamedPeer, Ports, Ips;
    }
  }

  /** The name does not begin with that of the service. */
  predicate OtherName(name: string, service: string) { |name| < |service| || name[..|service|] != service }

  /** A response is rejected exactly if some PTR record belongs to another service or it names no peer. */
  lemma RejectedIff(records: seq<Record>, service: string)
    ensures Parsed(records, service).None? <==>
      || (exists i :: 0 <= i < |records| && records[i].PTR? && OtherName(records[i].name, service))
      || NamedPeer(records).None?
  {
    hide NamedPeer;
    forall i | 0 <= i < |records| && records[i].PTR?
      ensures Foreign(records[i], service) <==> OtherName(records[i].name, service)
    {
    }
  }

  /** An accepted response leaves nothing to try exactly if it lacks SRV records or address records. */
  lemma NothingToTryIff(records: seq<Record>, service: string)
    requires Parsed(records, service).Some?
    ensures var r := Parsed(records, service).value;
      r.ports == [] || r.ips == [] <==> !HasPort(records) || !HasIp(records)
  {
    PortsAndIps(records);
  }

  /** A response that consists of the announcement alone is accepted and leaves nothing to try. */
  lemma AnnouncementAloneIsAccepted(configured: string, domain: string, h: PubKeyHash)
    requires h.Valid()
    ensures var name := ServiceName(configured) + domain;
      Parsed([PTR(name, PtrValue(h, name))], ServiceName(configured)) == Some(DiscoveryResult(h, [], []))
  {
    var name := ServiceName(configured) + domain;
    var records := [PTR(name, PtrValue(h, name))];
    assert records[0].PTR?;
    AnnouncedPeerIsParsed(configured, domain, h, records);
    PortsAndIps(records);
  }

  /**
   The addresses that `fulfill_request` tries: every port with every ip address, port by port. The list is
   empty, which `select_ok` does not survive, exactly if the response had no port or no ip address.
   */
  method SocketAddresses(r: DiscoveryResult) returns (addrs: seq<(nat, nat)>)
    ensures |addrs| == |r.ports| * |r.ips|
    ensures forall i, j :: 0 <= i < |r.ports| && 0 <= j < |r.ips| ==>
      At(i, |r.ips|, j) < |addrs| && addrs[At(i, |r.ips|, j)] == (r.ips[j], r.ports[i])
    ensures addrs == [] <==> r.ports == [] || r.ips == []
  {
    addrs := [];
    var n := |r.ips|;
    for i := 0 to |r.ports|
      invariant |addrs| == i * n
      invariant forall k, j :: 0 <= k < i && 0 <= j < n ==>
        At(k, n, j) < |addrs| && addrs[At(k, n, j)] == (r.ips[j], r.ports[k])
    {
      ghost var before := addrs;
      for j := 0 to n
        invariant |addrs| == i * n + j
        invariant before <= addrs
        invariant forall m :: 0 <= m < j ==> addrs[i * n + m] == (r.ips[m], r.ports[i])
      {
        addrs := addrs + [(r.ips[j], r.ports[i])];
      }
      assert |addrs| == (i + 1) * n;
    }
    if r.ports != [] && r.ips != [] { assert At(0, n, 0) < |addrs|; }
  }

  /** Position of the pair of port i and ip address j. */
  function At(i: nat, n: nat, j: nat): nat { i * n + j }
}
