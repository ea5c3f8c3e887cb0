/**
 * Detecting a rejected gateway certificate (service/src/cert_trust.rs): the scanner fed by
 * both output streams of one crosswire run, and the decision taken when the run ends.
 */
module CertTrust {
  import opened Options

  const UNTRUSTED_MARKER := "gateway certificate not trusted"

  predicate OccursAt(line: string, part: string, i: nat) {
    i + |part| <= |line| && line[i..i + |part|] == part
  }

  predicate Contains(line: string, part: string) {
    exists i :: 0 <= i <= |line| && OccursAt(line, part, i)
  }

  predicate IsHexDigit(c: char) {
    '0' <= c <= '9' || 'a' <= c <= 'f' || 'A' <= c <= 'F'
  }

  predicate IsLowerHexDigit(c: char) {
    '0' <= c <= '9' || 'a' <= c <= 'f'
  }

  // ----- Extracting the digest from a line -----

  function HexPrefix(line: string): (k: nat)
    ensures k <= |line|
    ensures forall i :: 0 <= i < k ==> IsHexDigit(line[i])
    ensures k < |line| ==> !IsHexDigit(line[k])
  {
    if line == "" || !IsHexDigit(line[0]) then 0 else 1 + HexPrefix(line[1..])
  }

  /** The pieces between characters that are not hex digits, empty ones included. */
  function HexPieces(line: string): seq<string> {
    var k := HexPrefix(line);
    if k == |line| then [line] else [line[..k]] + HexPieces(line[k + 1..])
  }

  predicate IsDigest(piece: string) {
    |piece| == 64 && forall i :: 0 <= i < |piece| ==> IsLowerHexDigit(piece[i])
  }

  function FirstDigest(pieces: seq<string>): Option<string> {
    if pieces == [] then None
    else if IsDigest(pieces[0]) then Some(pieces[0])
    else FirstDigest(pieces[1..])
  }

  function ExtractSha256(line: string): Option<string> {
    FirstDigest(HexPieces(line))
  }

  /** `line[i..i+64]` is lowercase and cannot be extended by a hex digit on either side. */
  predicate DigestAt(line: string, i: int) {
    && 0 <= i <= |line| - 64
    && (forall j :: i <= j < i + 64 ==> IsLowerHexDigit(line[j]))
    && (i > 0 ==> !IsHexDigit(line[i - 1]))
    && (i + 64 < |line| ==> !IsHexDigit(line[i + 64]))
  }

  ghost predicate FirstDigestAt(line: string, i: int) {
    DigestAt(line, i) && forall j :: j < i ==> !DigestAt(line, j)
  }

  lemma DigestInFirstPiece(line: string, i: int)
    requires i <= HexPrefix(line)
    ensures DigestAt(line, i) <==> i == 0 && IsDigest(line[..HexPrefix(line)])
  {
  }

  lemma DigestInTail(line: string, k: nat, i: int)
    requires k < |line| && !IsHexDigit(line[k])
    ensures i > k ==> (DigestAt(line, i) <==> DigestAt(line[k + 1..], i - k - 1))
  {
    var tail := line[k + 1..];
    if i > k && DigestAt(tail, i - k - 1) {
      assert forall j :: i <= j < i + 64 ==> line[j] == tail[j - k - 1];
    }
  }

  lemma FirstDigestOfCons(piece: string, pieces: seq<string>)
    ensures FirstDigest([piece] + pieces) == if IsDigest(piece) then Some(piece) else FirstDigest(pieces)
  {
    assert ([piece] + pieces)[1..] == pieces;
  }

  lemma ExtractUnfolds(line: string)
    ensures
      var k := HexPrefix(line);
      ExtractSha256(line) ==
      if IsDigest(line[..k]) then Some(line[..k])
      else if k == |line| then None
      else ExtractSha256(line[k + 1..])
  {
    var k := HexPrefix(line);
    if k == |line| {
      assert line[..k] == line && [line] == [line] + [];
      FirstDigestOfCons(line, []);
    } else {
      FirstDigestOfCons(line[..k], HexPieces(line[k + 1..]));
    }
  }

  lemma FirstDigestInTail(line: string, k: nat, t: int)
    requires k == HexPrefix(line) < |line| && !IsDigest(line[..k])
    requires FirstDigestAt(line[k + 1..], t)
    ensures FirstDigestAt(line, t + k + 1)
  {
    assert DigestAt(line, t + k + 1) by { DigestInTail(line, k, t + k + 1); }
    assert forall j :: j < t + k + 1 ==> !DigestAt(line, j) by {
      forall j | j < t + k + 1
        ensures !DigestAt(line, j)
      {
        NoEarlierDigest(line, k, t, j);
      }
    }
  }

  lemma SliceOfTail(line: string, from: nat, lo: nat, hi: nat)
    requires from <= |line| && lo <= hi <= |line| - from
    ensures line[from..][lo..hi] == line[from + lo..from + hi]
  {
  }

  lemma NoEarlierDigest(line: string, k: nat, t: int, j: int)
    requires k == HexPrefix(line) < |line| && !IsDigest(line[..k])
    requires FirstDigestAt(line[k + 1..], t) && j < t + k + 1
    ensures !DigestAt(line, j)
  {
    if j <= k {
      DigestInFirstPiece(line, j);
    } else {
      DigestInTail(line, k, j);
    }
  }

  lemma {:induction false} LocateDigest(line: string) returns (i: int)
    ensures ExtractSha256(line).None? ==> forall j :: !DigestAt(line, j)
    ensures ExtractSha256(line).Some? ==>
      FirstDigestAt(line, i) && ExtractSha256(line).value == line[i..i + 64]
    decreases |line|
  {
    var k := HexPrefix(line);
    ExtractUnfolds(line);
    if IsDigest(line[..k]) {
      i := 0;
      DigestInFirstPiece(line, 0);
      assert line[..k] == line[0..64];
    } else if k == |line| {
      i := 0;
      forall j
        ensures !DigestAt(line, j)
      {
        DigestInFirstPiece(line, if j <= k then j else k);
      }
    } else {
      var t := LocateDigest(line[k + 1..]);
      i := t + k + 1;
      if ExtractSha256(line).Some? {
        FirstDigestInTail(line, k, t);
        SliceOfTail(line, k + 1, t, t + 64);
      } else {
        forall j
          ensures !DigestAt(line, j)
        {
          DigestInFirstPiece(line, if j <= k then j else k);
          DigestInTail(line, k, j);
        }
      }
    }
  }

  /** The extracted digest is the first maximal 64-character lowercase run, if there is one. */
  lemma ExtractFindsFirstRun(line: string)
    ensures ExtractSha256(line).None? <==> forall i :: !DigestAt(line, i)
    ensures ExtractSha256(line).Some? ==>
      exists i :: FirstDigestAt(line, i) && ExtractSha256(line).value == line[i..i + 64]
  {
    var i := LocateDigest(line);
  }

  // ----- The scanner -----

  predicate BearsMarker(line: string) {
    Contains(line, UNTRUSTED_MARKER)
  }

  predicate BearsDigest(line: string) {
    (Contains(line, "digest") || Contains(line, "trusted-cert")) && ExtractSha256(line).Some?
  }

  datatype Evidence = Evidence(untrusted: bool, digest: Option<string>)

  const NO_EVIDENCE := Evidence(false, None)

  function ObserveLine(e: Evidence, line: string): Evidence {
    Evidence(
      e.untrusted || BearsMarker(line),
      if e.digest.None? && BearsDigest(line) then ExtractSha256(line) else e.digest)
  }

  function ObserveAll(e: Evidence, lines: seq<string>): Evidence {
    if lines == [] then e
    else ObserveLine(ObserveAll(e, lines[..|lines| - 1]), lines[|lines| - 1])
  }

  function ReportedChange(e: Evidence): Option<string> {
    if e.untrusted then e.digest else None
  }

  /** The verdict on a run whose lines were all observed by a fresh scanner. */
  function Verdict(lines: seq<string>): Option<string> {
    ReportedChange(ObserveAll(NO_EVIDENCE, lines))
  }

  class CertScanner {
    var untrusted: bool
    var digest: Option<string>

    ghost function View(): Evidence
      reads this
    {
      Evidence(untrusted, digest)
    }

    constructor ()
      ensures View() == NO_EVIDENCE
    {
      untrusted, digest := false, None;
    }

    method Observe(line: string)
      modifies this
      ensures View() == ObserveLine(old(View()), line)
    {
      if Contains(line, UNTRUSTED_MARKER) {
        untrusted := true;
      }
      if digest.None? && (Contains(line, "digest") || Contains(line, "trusted-cert")) {
        var d := ExtractSha256(line);
        if d.Some? {
          digest := d;
        }
      }
    }

    method CertChange() returns (change: Option<string>)
      ensures change == ReportedChange(View())
    {
      change := if untrusted then digest else None;
    }
  }

  /** Feed a fresh scanner every line of a run and read its verdict. */
  method ScanRun(lines: seq<string>) returns (change: Option<string>)
    ensures change == Verdict(lines)
  {
    var scanner := new CertScanner();
    for i := 0 to |lines|
      invariant scanner.View() == ObserveAll(NO_EVIDENCE, lines[..i])
    {
      assert lines[..i + 1][..i] == lines[..i];
      scanner.Observe(lines[i]);
    }
    assert lines[..|lines|] == lines;
    change := scanner.CertChange();
  }

  predicate FirstBearing(lines: seq<string>, i: int) {
    && 0 <= i < |lines|
    && BearsDigest(lines[i])
    && forall j :: 0 <= j < i ==> !BearsDigest(lines[j])
  }

  lemma {:induction false} EvidenceOf(lines: seq<string>)
    ensures
      var e := ObserveAll(NO_EVIDENCE, lines);
      && (e.untrusted <==> exists l <- lines :: BearsMarker(l))
      && (e.digest.Some? <==> exists l <- lines :: BearsDigest(l))
      && (e.digest.Some? ==> exists i :: FirstBearing(lines, i) && e.digest == ExtractSha256(lines[i]))
    decreases |lines|
  {
    if lines == [] {
    } else {
      var n := |lines| - 1;
      var front := lines[..n];
      assert lines == front + [lines[n]];
      EvidenceOf(front);
      var before := ObserveAll(NO_EVIDENCE, front);
      if before.digest.Some? {
        var i :| FirstBearing(front, i) && before.digest == ExtractSha256(front[i]);
        assert FirstBearing(lines, i);
      } else if BearsDigest(lines[n]) {
        assert forall j :: 0 <= j < n ==> lines[j] == front[j] && front[j] in front;
        assert FirstBearing(lines, n);
      }
    }
  }

  /**
   * A change is reported exactly when some line carries the rejection and some line carries a
   * digest; what is reported is the digest of the first such line.
   */
  lemma VerdictCharacterised(lines: seq<string>)
    ensures Verdict(lines).Some? <==>
      (exists l <- lines :: BearsMarker(l)) && (exists l <- lines :: BearsDigest(l))
    ensures Verdict(lines).Some? ==>
      exists i :: FirstBearing(lines, i) && Verdict(lines) == ExtractSha256(lines[i])
  {
    EvidenceOf(lines);
  }

  // ----- Independence of stream interleaving -----

  /** `merged` interleaves `out` and `err`, keeping the order within each. */
  predicate Interleaving(out: seq<string>, err: seq<string>, merged: seq<string>)
    decreases |merged|
  {
    if merged == [] then out == [] && err == []
    else
      || (out != [] && out[0] == merged[0] && Interleaving(out[1..], err, merged[1..]))
      || (err != [] && err[0] == merged[0] && Interleaving(out, err[1..], merged[1..]))
  }

  lemma {:induction false} InterleavingLines(out: seq<string>, err: seq<string>, merged: seq<string>)
    requires Interleaving(out, err, merged)
    ensures forall l :: l in merged <==> l in out || l in err
    decreases |merged|
  {
    if merged == [] {
    } else {
      assert merged == [merged[0]] + merged[1..];
      if out != [] && out[0] == merged[0] && Interleaving(out[1..], err, merged[1..]) {
        InterleavingLines(out[1..], err, merged[1..]);
        assert out == [out[0]] + out[1..];
      } else {
        InterleavingLines(out, err[1..], merged[1..]);
        assert err == [err[0]] + err[1..];
      }
    }
  }

  /**
   * However the two readers interleave, the same runs are recognised as a certificate change,
   * and with the same digest whenever the digest-bearing lines agree on it.
   */
  lemma VerdictIgnoresInterleaving(out: seq<string>, err: seq<string>, a: seq<string>, b: seq<string>)
    requires Interleaving(out, err, a) && Interleaving(out, err, b)
    ensures Verdict(a).Some? <==> Verdict(b).Some?
    ensures Verdict(a).Some? <==>
      (exists l <- out + err :: BearsMarker(l)) && (exists l <- out + err :: BearsDigest(l))
    ensures (forall k, l :: k in out + err && l in out + err && BearsDigest(k) && BearsDigest(l)
               ==> ExtractSha256(k) == ExtractSha256(l))
            ==> Verdict(a) == Verdict(b)
  {
    InterleavingLines(out, err, a);
    InterleavingLines(out, err, b);
    VerdictCharacterised(a);
    VerdictCharacterised(b);
  }

  // ----- What to do when the child exits -----

  datatype ExitAction = Retry | PromptCert(digest: string) | GiveUp

  function ClassifyExit(
    certChange: Option<string>, fast: bool, connecting: bool, retries: nat, maxRetries: nat
  ): ExitAction {
    if connecting && certChange.Some? then PromptCert(certChange.value)
    else if retries < maxRetries && fast && connecting then Retry
    else GiveUp
  }

  // ----- The words it looks for -----

  lemma HexDigitsAre(c: char)
    ensures IsHexDigit(c) <==> c in "0123456789abcdefABCDEF"
    ensures IsLowerHexDigit(c) <==> c in "0123456789abcdef"
  {
  }

  lemma ContainsExactly(line: string, part: string)
    ensures Contains(line, part) <==> exists before, after :: line == before + part + after
  {
    if i :| 0 <= i <= |line| && OccursAt(line, part, i) {
      assert line == line[..i] + part + line[i + |part|..];
    }
    if before, after :| line == before + part + after {
      assert OccursAt(line, part, |before|);
    }
  }

  lemma ContainsMiddle(before: string, part: string, after: string)
    ensures Contains(before + part + after, part)
  {
    ContainsExactly(before + part + after, part);
  }

  /**
   * A change is reported exactly when one line has the rejection, and one line, the same or
   * another, has "digest" or "trusted-cert" and a digest.
   */
  lemma VerdictByWords(lines: seq<string>)
    ensures Verdict(lines).Some? <==>
      && (exists l <- lines :: Contains(l, "gateway certificate not trusted"))
      && (exists l <- lines ::
            (Contains(l, "digest") || Contains(l, "trusted-cert")) && exists i :: DigestAt(l, i))
  {
    VerdictCharacterised(lines);
    forall l | l in lines
      ensures ExtractSha256(l).Some? <==> exists i :: DigestAt(l, i)
    {
      ExtractFindsFirstRun(l);
    }
  }

  /** A digest at the end of a line that bears no other. */
  lemma DigestAtEnd(before: string, digest: string)
    requires IsDigest(digest) && before != "" && !IsHexDigit(before[|before| - 1])
    requires ExtractSha256(before).None?
    ensures ExtractSha256(before + digest) == Some(digest)
  {
    var line, n := before + digest, |before|;
    ExtractFindsFirstRun(before);
    ExtractFindsFirstRun(line);
    assert forall j :: n <= j < n + 64 ==> line[j] == digest[j - n];
    assert DigestAt(line, n);
    forall j | j < n
      ensures !DigestAt(line, j)
    {
      NoDigestAcross(before, digest, j);
    }
    assert line[n..n + 64] == digest;
  }

  lemma NoDigestAcross(before: string, digest: string, j: int)
    requires before != "" && !IsHexDigit(before[|before| - 1])
    requires j < |before| && !DigestAt(before, j)
    ensures !DigestAt(before + digest, j)
  {
    var line := before + digest;
    assert forall i :: 0 <= i < |before| ==> line[i] == before[i];
    if 0 <= j && |before| < j + 64 {
      assert !IsLowerHexDigit(line[|before| - 1]);
    }
  }

  lemma DigestThenRejection(line: string, rejection: string)
    requires BearsDigest(line) && BearsMarker(rejection)
    ensures Verdict([line, rejection]) == ExtractSha256(line)
  {
    var lines := [line, rejection];
    assert line in lines && rejection in lines && FirstBearing(lines, 0);
    VerdictCharacterised(lines);
    var i :| FirstBearing(lines, i) && Verdict(lines) == ExtractSha256(lines[i]);
    assert i == 0;
  }

  lemma RealDigestLine(before: string, digest: string, heading: string, word: string, after: string)
    requires heading == "--" + word + after || heading == "sha256 " + word + after
    requires word == "digest" || word == "trusted-cert"
    ensures Contains(before + heading + digest, word)
  {
    var start := if heading == "--" + word + after then "--" else "sha256 ";
    assert before + heading + digest == (before + start) + word + (after + digest);
    ContainsMiddle(before + start, word, after + digest);
  }

  /** The two shapes of crosswire's output: its digest line, and its hint how to trust it. */
  lemma RealOutput(before: string, digest: string, hint: bool)
    requires IsDigest(digest)
    requires ExtractSha256(before + if hint then "--trusted-cert " else "sha256 digest: ").None?
    ensures
      var line := before + (if hint then "--trusted-cert " else "sha256 digest: ") + digest;
      Verdict([line, "Error: gateway certificate not trusted"]) == Some(digest)
  {
    var heading := if hint then "--trusted-cert " else "sha256 digest: ";
    DigestAtEnd(before + heading, digest);
    if hint {
      assert heading == "--" + "trusted-cert" + " ";
      RealDigestLine(before, digest, heading, "trusted-cert", " ");
    } else {
      assert heading == "sha256 " + "digest" + ": ";
      RealDigestLine(before, digest, heading, "digest", ": ");
    }
    RejectionBearsMarker();
    DigestThenRejection(before + heading + digest, "Error: gateway certificate not trusted");
  }

  lemma RejectionBearsMarker()
    ensures BearsMarker("Error: gateway certificate not trusted")
  {
    assert "Error: gateway certificate not trusted" == "Error: " + UNTRUSTED_MARKER + "";
    ContainsMiddle("Error: ", UNTRUSTED_MARKER, "");
  }
}
