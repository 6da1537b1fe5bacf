// The canonical byte string behind an Evidence supersession's payload digest:
// length-prefixed fields, tagged options, counted links, big-endian integers.

module EvidenceDigest {
  import opened Prelude
  import opened Classification

  // ---- What is hashed ----

  const U64 := 0x1_0000_0000_0000_0000

  type u64 = n: int | 0 <= n < U64

  type i64 = n: int | -0x8000_0000_0000_0000 <= n < 0x8000_0000_0000_0000

  /** The UTF-8 bytes of an id, a path or a text. */
  type Text = s: seq<byte> | |s| < U64

  datatype Kind =
    | Product | Initiative | Project | Roadmap | Milestone | Kpi | KpiObservation | ActionRequest
    | Action | DecisionRequest | Decision | Risk | Issue

  datatype Target = Target(kind: Kind, id: Text)

  datatype Algorithm = Sha256

  datatype Fingerprint = Fingerprint(algorithm: Algorithm, digest: Text)

  datatype Provenance = UserEntered | AuthoritativeTransition(reference: Text) | SyntheticFixture(reference: Text)

  datatype Link = Link(target: Target, version: u64, targetLevel: Level, linkLevel: Level, linkedAt: i64)

  type Links = s: seq<Link> | |s| < U64

  datatype Preview = Preview(
    intentId: Text,
    sourceId: Text,
    sourceVersion: u64,
    sourcePath: Text,
    sourceFingerprint: Option<Fingerprint>,
    sourceLevel: Level,
    replacementId: Text,
    replacementPath: Text,
    replacementFingerprint: Fingerprint,
    observedAt: i64,
    replacementLevel: Level,
    provenance: Provenance,
    links: Links,
    level: Level,
    rationale: Text,
    expiresAt: i64)

  // ---- Persisted names and integers ----

  function Ascii(s: string): (t: Text)
    requires |s| < U64 && forall i :: 0 <= i < |s| ==> s[i] < 128 as char
    ensures |t| == |s| && forall i :: 0 <= i < |s| ==> t[i] == s[i] as int
  {
    seq(|s|, i requires 0 <= i < |s| => s[i] as int)
  }

  function LevelName(l: Level): Text {
    match l
    case Public => Ascii("public")
    case Internal => Ascii("internal")
    case Confidential => Ascii("confidential")
    case Restricted => Ascii("restricted")
    case Unclassified => Ascii("unclassified")
  }

  function ProvenanceName(p: Provenance): Text {
    match p
    case UserEntered => Ascii("user_entered")
    case AuthoritativeTransition(_) => Ascii("authoritative_transition")
    case SyntheticFixture(_) => Ascii("synthetic_fixture")
  }

  function AlgorithmName(a: Algorithm): Text { Ascii("sha256") }

  function Discriminant(k: Kind): byte {
    match k
    case Product => 0
    case Initiative => 1
    case Project => 2
    case Roadmap => 3
    case Milestone => 4
    case Kpi => 5
    case KpiObservation => 6
    case ActionRequest => 7
    case Action => 8
    case DecisionRequest => 9
    case Decision => 10
    case Risk => 11
    case Issue => 12
  }

  function Pow256(w: nat): (p: nat)
    ensures p > 0
  {
    if w == 0 then 1 else 256 * Pow256(w - 1)
  }

  function BigEndian(n: nat, w: nat): (s: seq<byte>)
    ensures |s| == w
  {
    if w == 0 then [] else BigEndian(n / 256, w - 1) + [n % 256]
  }

  function U64Bytes(n: u64): (t: Text) ensures |t| == 8 { BigEndian(n, 8) }

  /** Two's complement. */
  function I64Bytes(n: i64): (t: Text) ensures |t| == 8 { BigEndian(if n < 0 then n + U64 else n, 8) }

  lemma {:induction false} BigEndianInjective(m: nat, n: nat, w: nat)
    requires m < Pow256(w) && n < Pow256(w) && BigEndian(m, w) == BigEndian(n, w)
    ensures m == n
  {
    if w == 0 {
    } else {
      var s, t := BigEndian(m, w), BigEndian(n, w);
      assert s[..w - 1] == BigEndian(m / 256, w - 1) && t[..w - 1] == BigEndian(n / 256, w - 1);
      assert s[w - 1] == m % 256 && t[w - 1] == n % 256;
      BigEndianInjective(m / 256, n / 256, w - 1);
    }
  }

  /** The value of digits with the most significant first. */
  function Value(s: seq<byte>): nat {
    if s == [] then 0 else s[0] * Pow256(|s| - 1) + Value(s[1..])
  }

  lemma {:induction false} ValueLast(s: seq<byte>, d: byte)
    ensures Value(s + [d]) == 256 * Value(s) + d
  {
    if s == [] {
      assert s + [d] == [d] && [d][1..] == [];
    } else {
      assert (s + [d])[1..] == s[1..] + [d];
      ValueLast(s[1..], d);
      assert s[0] * Pow256(|s|) == 256 * (s[0] * Pow256(|s| - 1));
    }
  }

  /** The first byte weighs most: reading the digits so recovers the number. */
  lemma {:induction false} BigEndianReads(n: nat, w: nat)
    requires n < Pow256(w)
    ensures Value(BigEndian(n, w)) == n
  {
    if w == 0 {
    } else {
      BigEndianReads(n / 256, w - 1);
      ValueLast(BigEndian(n / 256, w - 1), n % 256);
    }
  }

  /** Eight bytes, most significant first; a negative number is offset by two to the 64. */
  lemma IntegerBytes(n: u64, i: i64)
    ensures Value(U64Bytes(n)) == n
    ensures Value(I64Bytes(i)) == if i < 0 then i + 0x1_0000_0000_0000_0000 else i
  {
    Pow256Of8();
    BigEndianReads(n, 8);
    BigEndianReads(if i < 0 then i + U64 else i, 8);
  }

  lemma Pow256Of8()
    ensures Pow256(8) == U64
  {
    assert Pow256(2) == 65536;
    assert Pow256(4) == 65536 * 65536;
    assert Pow256(6) == 65536 * 65536 * 65536;
  }

  lemma IntegersInjective(m: u64, n: u64, a: i64, b: i64)
    ensures U64Bytes(m) == U64Bytes(n) ==> m == n
    ensures I64Bytes(a) == I64Bytes(b) ==> a == b
  {
    Pow256Of8();
    if U64Bytes(m) == U64Bytes(n) {
      BigEndianInjective(m, n, 8);
    }
    if I64Bytes(a) == I64Bytes(b) {
      BigEndianInjective(if a < 0 then a + U64 else a, if b < 0 then b + U64 else b, 8);
    }
  }

  lemma NamesInjective(l: Level, m: Level, j: Kind, k: Kind)
    ensures LevelName(l) == LevelName(m) ==> l == m
    ensures Discriminant(j) == Discriminant(k) ==> j == k
  {
    assert LevelName(Confidential)[0] != LevelName(Unclassified)[0];
  }

  // ---- The fields, and their framing ----

  function Field(f: Text): seq<byte> { U64Bytes(|f|) + f }

  function Framed(fs: seq<Text>): seq<byte> { if fs == [] then [] else Field(fs[0]) + Framed(fs[1..]) }

  function ProvenanceFields(p: Provenance): seq<Text> {
    [ProvenanceName(p)] + if p.UserEntered? then [Ascii("0")] else [Ascii("1"), p.reference]
  }

  function FingerprintFields(f: Option<Fingerprint>): seq<Text> {
    if f.None? then [Ascii("0")] else [Ascii("1"), AlgorithmName(f.value.algorithm), f.value.digest]
  }

  function LinkFields(l: Link): (fs: seq<Text>)
    ensures |fs| == 6
  {
    [[Discriminant(l.target.kind)], l.target.id, U64Bytes(l.version), LevelName(l.targetLevel), LevelName(l.linkLevel),
     I64Bytes(l.linkedAt)]
  }

  function LinksFields(links: seq<Link>): seq<Text> {
    if links == [] then [] else LinkFields(links[0]) + LinksFields(links[1..])
  }

  function SourceFields(p: Preview): (fs: seq<Text>)
    ensures |fs| == 5
  {
    [Ascii("product-mission-control.") + Ascii("evidence-supersession.") + Ascii("prepared-intent.v1"),
     p.intentId, p.sourceId, U64Bytes(p.sourceVersion), p.sourcePath]
  }

  function ReplacementFields(p: Preview): (fs: seq<Text>)
    ensures |fs| == 7
  {
    [LevelName(p.sourceLevel), p.replacementId, p.replacementPath, AlgorithmName(p.replacementFingerprint.algorithm),
     p.replacementFingerprint.digest, I64Bytes(p.observedAt), LevelName(p.replacementLevel)]
  }

  function EndFields(p: Preview): (fs: seq<Text>)
    ensures |fs| == 3
  {
    [LevelName(p.level), p.rationale, I64Bytes(p.expiresAt)]
  }

  function Fields(p: Preview): seq<Text> {
    SourceFields(p)
    + (FingerprintFields(p.sourceFingerprint)
       + (ReplacementFields(p)
          + (ProvenanceFields(p.provenance)
             + ([U64Bytes(|p.links|)] + (LinksFields(p.links) + EndFields(p))))))
  }

  function Encoding(p: Preview): seq<byte> { Framed(Fields(p)) }

  // ---- The hasher, fed field by field ----

  class Hasher {
    var fed: seq<byte>

    constructor ()
      ensures fed == []
    {
      fed := [];
    }

    method Update(bytes: seq<byte>)
      modifies this
      ensures fed == old(fed) + bytes
    {
      fed := fed + bytes;
    }

    method DigestField(value: Text)
      modifies this
      ensures fed == old(fed) + Field(value)
    {
      Update(U64Bytes(|value|));
      Update(value);
    }

    method DigestAll(values: seq<Text>)
      modifies this
      ensures fed == old(fed) + Framed(values)
    {
      for i := 0 to |values|
        invariant fed + Framed(values[i..]) == old(fed) + Framed(values)
      {
        assert values[i..][0] == values[i] && values[i..][1..] == values[i + 1..];
        ghost var before := fed;
        DigestField(values[i]);
        assert before + (Field(values[i]) + Framed(values[i + 1..])) == fed + Framed(values[i + 1..]);
      }
    }

    method DigestProvenance(p: Provenance)
      modifies this
      ensures fed == old(fed) + Framed(ProvenanceFields(p))
    {
      if p.UserEntered? {
        DigestAll([ProvenanceName(p), Ascii("0")]);
        assert ProvenanceFields(p) == [ProvenanceName(p), Ascii("0")];
      } else {
        DigestAll([ProvenanceName(p), Ascii("1"), p.reference]);
        assert ProvenanceFields(p) == [ProvenanceName(p), Ascii("1"), p.reference];
      }
    }

    method DigestFingerprint(f: Option<Fingerprint>)
      modifies this
      ensures fed == old(fed) + Framed(FingerprintFields(f))
    {
      if f.Some? {
        DigestAll([Ascii("1"), AlgorithmName(f.value.algorithm), f.value.digest]);
      } else {
        DigestAll([Ascii("0")]);
      }
    }

    method DigestLinks(links: seq<Link>)
      modifies this
      ensures fed == old(fed) + Framed(LinksFields(links))
    {
      for i := 0 to |links|
        invariant fed + Framed(LinksFields(links[i..])) == old(fed) + Framed(LinksFields(links))
      {
        assert links[i..][0] == links[i] && links[i..][1..] == links[i + 1..];
        ghost var before := fed;
        ghost var rest := LinksFields(links[i + 1..]);
        DigestAll(LinkFields(links[i]));
        FramedConcat(LinkFields(links[i]), rest);
        assert before + (Framed(LinkFields(links[i])) + Framed(rest)) == fed + Framed(rest);
      }
    }
  }

  lemma {:induction false} FramedConcat(fs: seq<Text>, gs: seq<Text>)
    ensures Framed(fs + gs) == Framed(fs) + Framed(gs)
  {
    if fs == [] {
      assert fs + gs == gs;
    } else {
      assert (fs + gs)[1..] == fs[1..] + gs;
      FramedConcat(fs[1..], gs);
    }
  }

  lemma EncodingParts(p: Preview)
    ensures Encoding(p) ==
            Framed(SourceFields(p))
            + (Framed(FingerprintFields(p.sourceFingerprint))
               + (Framed(ReplacementFields(p))
                  + (Framed(ProvenanceFields(p.provenance))
                     + (Framed([U64Bytes(|p.links|)]) + (Framed(LinksFields(p.links)) + Framed(EndFields(p)))))))
  {
    var e := LinksFields(p.links) + EndFields(p);
    var d := [U64Bytes(|p.links|)] + e;
    var c := ProvenanceFields(p.provenance) + d;
    var b := ReplacementFields(p) + c;
    var a := FingerprintFields(p.sourceFingerprint) + b;
    FramedConcat(LinksFields(p.links), EndFields(p));
    FramedConcat([U64Bytes(|p.links|)], e);
    FramedConcat(ProvenanceFields(p.provenance), d);
    FramedConcat(ReplacementFields(p), c);
    FramedConcat(FingerprintFields(p.sourceFingerprint), b);
    FramedConcat(SourceFields(p), a);
  }

  lemma Regrouped(a: seq<byte>, b: seq<byte>, c: seq<byte>, d: seq<byte>, e: seq<byte>, f: seq<byte>, g: seq<byte>)
    ensures ((((((([] + a) + b) + c) + d) + e) + f) + g) == a + (b + (c + (d + (e + (f + g)))))
  {
  }

  /** What the hasher is fed is the encoding; `sha256` stands for the hash. */
  method ComputeDigest(sha256: seq<byte> -> string, p: Preview) returns (digest: string)
    ensures digest == sha256(Encoding(p))
  {
    var hasher := new Hasher();
    hasher.DigestAll(SourceFields(p));
    hasher.DigestFingerprint(p.sourceFingerprint);
    hasher.DigestAll(ReplacementFields(p));
    hasher.DigestProvenance(p.provenance);
    hasher.DigestAll([U64Bytes(|p.links|)]);
    hasher.DigestLinks(p.links);
    hasher.DigestAll(EndFields(p));
    EncodingParts(p);
    Regrouped(Framed(SourceFields(p)), Framed(FingerprintFields(p.sourceFingerprint)), Framed(ReplacementFields(p)),
              Framed(ProvenanceFields(p.provenance)), Framed([U64Bytes(|p.links|)]), Framed(LinksFields(p.links)),
              Framed(EndFields(p)));
    digest := sha256(hasher.fed);
  }

  // ---- Unique decodability ----

  lemma SameSplit<T>(a: seq<T>, s: seq<T>, b: seq<T>, t: seq<T>)
    requires a + s == b + t && |a| == |b|
    ensures a == b && s == t
  {
    assert a == (a + s)[..|a|] && b == (b + t)[..|b|];
    assert s == (a + s)[|a|..] && t == (b + t)[|b|..];
  }

  /** A length-prefixed field ends where it says, whatever follows. */
  lemma FieldSplit(f: Text, s: seq<byte>, g: Text, t: seq<byte>)
    requires Field(f) + s == Field(g) + t
    ensures f == g && s == t
  {
    assert Field(f) + s == U64Bytes(|f|) + (f + s) && Field(g) + t == U64Bytes(|g|) + (g + t);
    SameSplit(U64Bytes(|f|), f + s, U64Bytes(|g|), g + t);
    IntegersInjective(|f|, |g|, 0, 0);
    SameSplit(f, s, g, t);
  }

  lemma FramedEmpty(fs: seq<Text>)
    ensures Framed(fs) == [] <==> fs == []
  {
    if fs != [] {
      assert |Field(fs[0])| >= 8;
    }
  }

  /** Framed field lists are uniquely decodable. */
  lemma {:induction false} FramedInjective(fs: seq<Text>, gs: seq<Text>)
    requires Framed(fs) == Framed(gs)
    ensures fs == gs
  {
    FramedEmpty(fs);
    FramedEmpty(gs);
    if fs != [] && gs != [] {
      FieldSplit(fs[0], Framed(fs[1..]), gs[0], Framed(gs[1..]));
      FramedInjective(fs[1..], gs[1..]);
      assert fs == [fs[0]] + fs[1..] && gs == [gs[0]] + gs[1..];
    }
  }

  lemma FingerprintSplit(f: Option<Fingerprint>, s: seq<Text>, g: Option<Fingerprint>, t: seq<Text>)
    requires FingerprintFields(f) + s == FingerprintFields(g) + t
    ensures f == g && s == t
  {
    var a, b := FingerprintFields(f), FingerprintFields(g);
    assert (a + s)[0] == a[0] && (b + t)[0] == b[0];
    assert Ascii("0")[0] != Ascii("1")[0];
    assert f.Some? == g.Some?;
    SameSplit(a, s, b, t);
    if f.Some? {
      assert f.value == Fingerprint(Sha256, a[2]) && g.value == Fingerprint(Sha256, b[2]);
    }
  }

  lemma ProvenanceSplit(p: Provenance, s: seq<Text>, q: Provenance, t: seq<Text>)
    requires ProvenanceFields(p) + s == ProvenanceFields(q) + t
    ensures p == q && s == t
  {
    var a, b := ProvenanceFields(p), ProvenanceFields(q);
    assert (a + s)[0] == a[0] == ProvenanceName(p) && (b + t)[0] == b[0] == ProvenanceName(q);
    assert |ProvenanceName(p)| == |ProvenanceName(q)|;
    SameSplit(a, s, b, t);
    assert !p.UserEntered? ==> a[2] == p.reference && b[2] == q.reference;
  }

  lemma LinkInjective(l: Link, m: Link)
    requires LinkFields(l) == LinkFields(m)
    ensures l == m
  {
    var a, b := LinkFields(l), LinkFields(m);
    assert a[0][0] == b[0][0] && a[1] == b[1] && a[2] == b[2] && a[3] == b[3] && a[4] == b[4] && a[5] == b[5];
    IntegersInjective(l.version, m.version, l.linkedAt, m.linkedAt);
    NamesInjective(l.targetLevel, m.targetLevel, l.target.kind, m.target.kind);
    NamesInjective(l.linkLevel, m.linkLevel, l.target.kind, m.target.kind);
  }

  lemma {:induction false} LinksSplit(k: seq<Link>, s: seq<Text>, l: seq<Link>, t: seq<Text>)
    requires |k| == |l| && LinksFields(k) + s == LinksFields(l) + t
    ensures k == l && s == t
  {
    if k != [] {
      var a, b := LinkFields(k[0]), LinkFields(l[0]);
      assert LinksFields(k) + s == a + (LinksFields(k[1..]) + s);
      assert LinksFields(l) + t == b + (LinksFields(l[1..]) + t);
      SameSplit(a, LinksFields(k[1..]) + s, b, LinksFields(l[1..]) + t);
      LinkInjective(k[0], l[0]);
      LinksSplit(k[1..], s, l[1..], t);
      assert k == [k[0]] + k[1..] && l == [l[0]] + l[1..];
    } else {
      assert LinksFields(k) + s == s && LinksFields(l) + t == t;
    }
  }

  lemma SourceInjective(p: Preview, q: Preview)
    requires SourceFields(p) == SourceFields(q)
    ensures p.intentId == q.intentId && p.sourceId == q.sourceId
    ensures p.sourceVersion == q.sourceVersion && p.sourcePath == q.sourcePath
  {
    var a, b := SourceFields(p), SourceFields(q);
    assert a[1] == b[1] && a[2] == b[2] && a[3] == b[3] && a[4] == b[4];
    IntegersInjective(p.sourceVersion, q.sourceVersion, 0, 0);
  }

  lemma ReplacementInjective(p: Preview, q: Preview)
    requires ReplacementFields(p) == ReplacementFields(q)
    ensures p.sourceLevel == q.sourceLevel && p.replacementId == q.replacementId
    ensures p.replacementPath == q.replacementPath && p.replacementFingerprint == q.replacementFingerprint
    ensures p.observedAt == q.observedAt && p.replacementLevel == q.replacementLevel
  {
    var a, b := ReplacementFields(p), ReplacementFields(q);
    assert a[0] == b[0] && a[1] == b[1] && a[2] == b[2] && a[4] == b[4] && a[5] == b[5] && a[6] == b[6];
    IntegersInjective(0, 0, p.observedAt, q.observedAt);
    NamesInjective(p.sourceLevel, q.sourceLevel, Product, Product);
    NamesInjective(p.replacementLevel, q.replacementLevel, Product, Product);
  }

  lemma EndInjective(p: Preview, q: Preview)
    requires EndFields(p) == EndFields(q)
    ensures p.level == q.level && p.rationale == q.rationale && p.expiresAt == q.expiresAt
  {
    var a, b := EndFields(p), EndFields(q);
    assert a[0] == b[0] && a[1] == b[1] && a[2] == b[2];
    IntegersInjective(0, 0, p.expiresAt, q.expiresAt);
    NamesInjective(p.level, q.level, Product, Product);
  }

  lemma FieldsInjective(p: Preview, q: Preview)
    requires Fields(p) == Fields(q)
    ensures p == q
  {
    var e, e' := LinksFields(p.links) + EndFields(p), LinksFields(q.links) + EndFields(q);
    var d, d' := [U64Bytes(|p.links|)] + e, [U64Bytes(|q.links|)] + e';
    var c, c' := ProvenanceFields(p.provenance) + d, ProvenanceFields(q.provenance) + d';
    var b, b' := ReplacementFields(p) + c, ReplacementFields(q) + c';
    var a, a' := FingerprintFields(p.sourceFingerprint) + b, FingerprintFields(q.sourceFingerprint) + b';
    SameSplit(SourceFields(p), a, SourceFields(q), a');
    SourceInjective(p, q);
    FingerprintSplit(p.sourceFingerprint, b, q.sourceFingerprint, b');
    SameSplit(ReplacementFields(p), c, ReplacementFields(q), c');
    ReplacementInjective(p, q);
    ProvenanceSplit(p.provenance, d, q.provenance, d');
    SameSplit([U64Bytes(|p.links|)], e, [U64Bytes(|q.links|)], e');
    assert U64Bytes(|p.links|) == [U64Bytes(|p.links|)][0] == [U64Bytes(|q.links|)][0];
    IntegersInjective(|p.links|, |q.links|, 0, 0);
    LinksSplit(p.links, EndFields(p), q.links, EndFields(q));
    EndInjective(p, q);
  }

  /** Two previews with equal encodings are equal in every field. */
  lemma EncodingInjective(p: Preview, q: Preview)
    ensures Encoding(p) == Encoding(q) <==> p == q
  {
    if Encoding(p) == Encoding(q) {
      FramedInjective(Fields(p), Fields(q));
      FieldsInjective(p, q);
    }
  }
}
