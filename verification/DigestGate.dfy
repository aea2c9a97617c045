/** The gate over the air-gap image sources (airgap/tests/test-airgap-image-digests.py): every
    image has a tag and a digest, and one digest per name and tag. Which references a line
    contains is given. */
module DigestGate {

  import opened Basics

  // ── Which lines of the Zarf package count ──────────────────────────────────

  /** Python's `strip` also removes the information separators. */
  predicate Space(c: char) { Blank(c) || '\U{1C}' <= c <= '\U{1F}' }

  function Indent(line: string): (n: nat)
    ensures n <= |line| && (forall i :: 0 <= i < n ==> Space(line[i])) && (n < |line| ==> !Space(line[n]))
  {
    if line == "" || !Space(line[0]) then 0 else 1 + Indent(line[1..])
  }

  predicate Empty(line: string) { Indent(line) == |line| }

  predicate Comment(line: string) { Indent(line) < |line| && line[Indent(line)] == '#' }

  predicate Header(line: string) { line == "    images:" }

  predicate Item(line: string) { "      - " <= line }

  /** A line that ends an images block. */
  predicate Ends(line: string) {
    !Header(line) && !Item(line) && !Empty(line) && !Comment(line) && Indent(line) <= 4
  }

  /** The block that line `j` opens goes on up to line `i`. */
  ghost predicate Reaches(lines: seq<string>, j: int, i: nat)
    requires i <= |lines|
  {
    0 <= j < i && Header(lines[j]) && forall k :: j < k < i ==> !Ends(lines[k])
  }

  /** Line `i` lies in an images block: a header precedes it with no end in between. */
  ghost predicate InBlock(lines: seq<string>, i: nat) {
    i <= |lines| && exists j :: Reaches(lines, j, i)
  }

  ghost predicate Counts(lines: seq<string>, i: nat) {
    i < |lines| && !Header(lines[i]) && Item(lines[i]) && InBlock(lines, i)
  }

  /** The scanner yields exactly the list items inside images blocks, in order. */
  method ZarfLines(lines: seq<string>) returns (numbers: seq<nat>)
    ensures forall i: nat :: i in numbers <==> Counts(lines, i)
    ensures forall a, b :: 0 <= a < b < |numbers| ==> numbers[a] < numbers[b]
  {
    var inImages := false;
    numbers := [];
    for i := 0 to |lines|
      invariant inImages <==> InBlock(lines, i)
      invariant forall n: nat :: n in numbers <==> n < i && Counts(lines, n)
      invariant forall a :: 0 <= a < |numbers| ==> numbers[a] < i
      invariant forall a, b :: 0 <= a < b < |numbers| ==> numbers[a] < numbers[b]
    {
      BlockStep(lines, i);
      if Header(lines[i]) {
        inImages := true;
      } else if inImages && Item(lines[i]) {
        numbers := numbers + [i];
      } else if inImages && !Empty(lines[i]) && !Comment(lines[i]) && Indent(lines[i]) <= 4 {
        inImages := false;
      }
    }
  }

  /** A line counts, written out: it is a list item, an `images:` header comes before it, and
      between the two there is no line that is indented by four or less, is no header, and begins
      with a character other than a number sign. */
  lemma CountsIff(lines: seq<string>, i: nat)
    ensures Counts(lines, i) <==>
            && i < |lines| && "      - " <= lines[i]
            && exists j :: 0 <= j < i && lines[j] == "    images:" &&
                           forall k :: j < k < i && lines[k] != "    images:" ==>
                             forall n: nat :: n <= 4 && n < |lines[k]| && Begins(lines[k], n) ==> lines[k][n] == '#'
  {
    forall k | 0 <= k < |lines|
      ensures Ends(lines[k]) <==>
              lines[k] != "    images:" &&
              exists n: nat :: n <= 4 && n < |lines[k]| && Begins(lines[k], n) && lines[k][n] != '#'
    {
      EndsIff(lines[k]);
    }
    if i < |lines| && Item(lines[i]) { ItemIsIndented(lines[i]); }
    if Counts(lines, i) {
      var j :| Reaches(lines, j, i);
      assert lines[j] == "    images:";
    }
    if j :| i < |lines| && 0 <= j < i && lines[j] == "    images:" &&
            forall k :: j < k < i && lines[k] != "    images:" ==>
              forall n: nat :: n <= 4 && n < |lines[k]| && Begins(lines[k], n) ==> lines[k][n] == '#' {
      assert Reaches(lines, j, i);
    }
  }

  /** The text of the line begins at `n`, behind white space as Python sees it. */
  ghost predicate Begins(line: string, n: nat) {
    && n < |line| && !White(line[n]) && forall k :: 0 <= k < n ==> White(line[k])
  }

  /** Python's `str.isspace`, by code points. */
  predicate White(c: char) {
    || 9 <= c as int <= 13 || 28 <= c as int <= 32 || c as int == 0x85 || c as int == 0xA0 || c as int == 0x1680
    || 0x2000 <= c as int <= 0x200A || c as int == 0x2028 || c as int == 0x2029 || c as int == 0x202F
    || c as int == 0x205F || c as int == 0x3000
  }

  lemma ItemIsIndented(line: string)
    requires Item(line)
    ensures line != "    images:" && Indent(line) > 4
  {
    assert line[4] == ' ' && line[6] == '-';
    assert forall k :: 0 <= k < 6 ==> Space(line[k]);
  }

  lemma EndsIff(line: string)
    ensures Ends(line) <==>
            line != "    images:" && exists n: nat :: n <= 4 && n < |line| && Begins(line, n) && line[n] != '#'
  {
    var m := Indent(line);
    forall n: nat ensures Begins(line, n) ==> n == m {}
    if m < |line| { assert Begins(line, m); }
    if Item(line) { ItemIsIndented(line); }
  }

  lemma BlockStep(lines: seq<string>, i: nat)
    requires i < |lines|
    ensures InBlock(lines, i + 1) <==> Header(lines[i]) || (InBlock(lines, i) && !Ends(lines[i]))
  {
    if InBlock(lines, i + 1) {
      var j :| Reaches(lines, j, i + 1);
      assert j < i ==> Reaches(lines, j, i);
    }
    if Header(lines[i]) { assert Reaches(lines, i, i + 1); }
    if InBlock(lines, i) && !Ends(lines[i]) {
      var j :| Reaches(lines, j, i);
      assert Reaches(lines, j, i + 1);
    }
  }

  // ── The gate ───────────────────────────────────────────────────────────────

  /** A match: a name with a tag and perhaps a digest, or a name with a digest only. */
  datatype Reference =
    | Tagged(literal: string, name: string, tag: string, digest: Option<string>)
    | DigestOnly(literal: string, name: string, only: string)

  /** A source; `lines` holds the references of each line that counts. */
  datatype File = File(path: string, inventory: bool, lines: seq<seq<Reference>>)

  datatype Failure =
    | NoTag(path: string, reference: Reference)
    | NoDigest(path: string, reference: Reference)
    | NoReferences(path: string)
    | Inconsistent(name: string, tag: string)

  const NOT_AN_IMAGE := "127.0.0.1:31999"
  const BUILT_LOCALLY := "localhost:5001/knr-ops-airgap:latest"

  predicate IsImage(r: Reference) { r.literal != NOT_AN_IMAGE }

  /** The gate demands something of the reference. */
  predicate Subject(r: Reference) { IsImage(r) && r.literal != BUILT_LOCALLY }

  predicate Pinned(r: Reference) { r.Tagged? && r.digest.Some? }

  ghost predicate Mentions(f: File, r: Reference) {
    exists i :: 0 <= i < |f.lines| && r in f.lines[i]
  }

  ghost predicate Occurs(files: seq<File>, r: Reference) {
    exists i :: 0 <= i < |files| && Mentions(files[i], r)
  }

  ghost predicate HasImages(f: File) {
    exists r :: Mentions(f, r) && IsImage(r)
  }

  /** Every image is pinned. */
  ghost predicate AllPinned(files: seq<File>) {
    forall r :: Occurs(files, r) && Subject(r) ==> Pinned(r)
  }

  /** One digest per name and tag, across all files. */
  ghost predicate OneDigest(files: seq<File>) {
    forall r, s :: (Occurs(files, r) && Occurs(files, s) && Subject(r) && Subject(s) && Pinned(r) && Pinned(s) &&
                    r.name == s.name && r.tag == s.tag) ==> r.digest == s.digest
  }

  /** No inventory has become unreadable for the gate. */
  ghost predicate Covered(files: seq<File>) {
    forall i :: 0 <= i < |files| && files[i].inventory ==> HasImages(files[i])
  }

  type Key = (string, string)

  function KeyOf(r: Reference): Key
    requires Pinned(r)
  {
    (r.name, r.tag)
  }

  /** `seen` holds the digests of the pinned references that were read, by name and tag. */
  ghost predicate Recorded(seen: map<Key, seq<string>>, read: set<Reference>) {
    && (forall r :: r in read && Pinned(r) ==> KeyOf(r) in seen && r.digest.value in seen[KeyOf(r)])
    && (forall k, d :: k in seen && d in seen[k] ==> HasSource(read, k, d))
  }

  ghost predicate HasSource(read: set<Reference>, k: Key, d: string) {
    exists r :: r in read && Pinned(r) && KeyOf(r) == k && r.digest.value == d
  }

  /** The complaint `x` about the reference `r` of a source. */
  predicate Faulty(path: string, r: Reference, x: Failure) {
    Subject(r) && !Pinned(r) && x == (if r.DigestOnly? then NoTag(path, r) else NoDigest(path, r))
  }

  /** The complaints about the references before match `j` of line `i`. */
  ghost predicate FaultyBefore(f: File, i: nat, j: nat, x: Failure) {
    (x.NoTag? || x.NoDigest?) && MentionsBefore(f, i, j, x.reference) && Faulty(f.path, x.reference, x)
  }

  ghost predicate FaultyIn(f: File, x: Failure) {
    || ((x.NoTag? || x.NoDigest?) && Mentions(f, x.reference) && Faulty(f.path, x.reference, x))
    || (x == NoReferences(f.path) && f.inventory && !HasImages(f))
  }

  class Gate {
    var failures: seq<Failure>
    var seen: map<Key, seq<string>>
    /** The references the gate has demanded something of. */
    ghost var read: set<Reference>

    ghost predicate Valid()
      reads this
    {
      Recorded(seen, read)
    }

    constructor ()
      ensures Valid() && read == {} && failures == []
    {
      failures, seen, read := [], map[], {};
    }

    /** One match of one line. */
    method Check(path: string, r: Reference) returns (matched: bool)
      requires Valid()
      modifies this
      ensures Valid() && matched == IsImage(r)
      ensures read == old(read) + if Subject(r) then {r} else {}
      ensures forall x :: x in failures <==> x in old(failures) || Faulty(path, r, x)
    {
      if r.literal == NOT_AN_IMAGE { return false; }
      matched := true;
      if r.literal == BUILT_LOCALLY { return; }
      read := read + {r};
      if r.DigestOnly? {
        failures := failures + [NoTag(path, r)];
        RecordedFurther(seen, old(read), r);
        return;
      }
      if r.digest == None {
        failures := failures + [NoDigest(path, r)];
        RecordedFurther(seen, old(read), r);
        return;
      }
      var key := (r.name, r.tag);
      seen := seen[key := (if key in seen then seen[key] else []) + [r.digest.value]];
      RecordedOnce(old(seen), old(read), r);
    }

    /** All lines of one source. */
    method CheckFile(f: File)
      requires Valid()
      modifies this
      ensures Valid()
      ensures forall r :: r in read <==> r in old(read) || (Mentions(f, r) && Subject(r))
      ensures forall x :: x in failures <==> x in old(failures) || FaultyIn(f, x)
    {
      var matches := 0;
      for i := 0 to |f.lines|
        invariant Valid()
        invariant forall r :: r in read <==> r in old(read) || (MentionsBefore(f, i, 0, r) && Subject(r))
        invariant forall x :: x in failures <==> x in old(failures) || FaultyBefore(f, i, 0, x)
        invariant matches > 0 <==> exists r :: MentionsBefore(f, i, 0, r) && IsImage(r)
      {
        for j := 0 to |f.lines[i]|
          invariant Valid()
          invariant forall r :: r in read <==> r in old(read) || (MentionsBefore(f, i, j, r) && Subject(r))
          invariant forall x :: x in failures <==> x in old(failures) || FaultyBefore(f, i, j, x)
          invariant matches > 0 <==> exists r :: MentionsBefore(f, i, j, r) && IsImage(r)
        {
          MentionsNext(f, i, j);
          var matched := Check(f.path, f.lines[i][j]);
          if matched {
            matches := matches + 1;
            assert MentionsBefore(f, i, j + 1, f.lines[i][j]);
          }
        }
        MentionsLine(f, i);
      }
      MentionsAll(f);
      if matches == 0 && f.inventory { failures := failures + [NoReferences(f.path)]; }
    }

    /** The consistency loop over `seen`. */
    method Compare()
      requires Valid()
      modifies this`failures
      ensures forall x :: x in failures <==> x in old(failures) || Disagrees(seen, x)
    {
      var keys := seen.Keys;
      while keys != {}
        invariant keys <= seen.Keys
        invariant forall x :: x in failures <==>
          x in old(failures) || (Disagrees(seen, x) && (x.name, x.tag) !in keys)
        decreases keys
      {
        var k :| k in keys;
        keys := keys - {k};
        var digests := set d | d in seen[k];
        AgreeIffOne(seen[k]);
        if |digests| > 1 { failures := failures + [Inconsistent(k.0, k.1)]; }
      }
    }
  }

  ghost predicate Disagrees(seen: map<Key, seq<string>>, x: Failure) {
    x.Inconsistent? && (x.name, x.tag) in seen && !Agree(seen[(x.name, x.tag)])
  }

  predicate Agree(digests: seq<string>) {
    forall d, e :: d in digests && e in digests ==> d == e
  }

  lemma AgreeIffOne(digests: seq<string>)
    ensures Agree(digests) <==> |set d | d in digests| <= 1
  {
    var all := set d | d in digests;
    if |all| <= 1 {
      forall d, e | d in digests && e in digests ensures d == e {
        if d != e {
          assert {d, e} <= all;
          SubsetIsSmaller({d, e}, all);
        }
      }
    } else {
      var d :| d in all;
      var rest := all - {d};
      assert |rest| >= 1;
      var e :| e in rest;
      assert !Agree(digests);
    }
  }

  lemma RecordedFurther(seen: map<Key, seq<string>>, read: set<Reference>, r: Reference)
    requires Recorded(seen, read) && !Pinned(r)
    ensures Recorded(seen, read + {r})
  {
    forall k, d | k in seen && d in seen[k] ensures HasSource(read + {r}, k, d) {
      assert HasSource(read, k, d);
    }
  }

  lemma RecordedOnce(seen: map<Key, seq<string>>, read: set<Reference>, r: Reference)
    requires Recorded(seen, read) && Pinned(r)
    ensures var k := KeyOf(r);
            Recorded(seen[k := (if k in seen then seen[k] else []) + [r.digest.value]], read + {r})
  {
    var key := KeyOf(r);
    var after := seen[key := (if key in seen then seen[key] else []) + [r.digest.value]];
    forall k, d | k in after && d in after[k] ensures HasSource(read + {r}, k, d) {
      if k in seen && d in seen[k] { assert HasSource(read, k, d); }
    }
  }

  /** The references before match `j` of line `i`. */
  ghost predicate MentionsBefore(f: File, i: nat, j: nat, r: Reference) {
    || (exists k :: 0 <= k < i && k < |f.lines| && r in f.lines[k])
    || (i < |f.lines| && j <= |f.lines[i]| && r in f.lines[i][..j])
  }

  lemma MentionsNext(f: File, i: nat, j: nat)
    requires i < |f.lines| && j < |f.lines[i]|
    ensures forall r :: MentionsBefore(f, i, j + 1, r) <==> MentionsBefore(f, i, j, r) || r == f.lines[i][j]
  {
    assert f.lines[i][..j + 1] == f.lines[i][..j] + [f.lines[i][j]];
  }

  lemma MentionsLine(f: File, i: nat)
    requires i < |f.lines|
    ensures forall r :: MentionsBefore(f, i + 1, 0, r) <==> MentionsBefore(f, i, |f.lines[i]|, r)
  {
    assert f.lines[i][..|f.lines[i]|] == f.lines[i];
    forall r ensures MentionsBefore(f, i + 1, 0, r) <==> MentionsBefore(f, i, |f.lines[i]|, r) {
      if r in f.lines[i] { assert MentionsBefore(f, i + 1, 0, r); }
    }
  }

  lemma MentionsAll(f: File)
    ensures forall r :: MentionsBefore(f, |f.lines|, 0, r) <==> Mentions(f, r)
  {
  }

  /** What a complete report of the sources contains. */
  ghost predicate Deserved(files: seq<File>, x: Failure) {
    match x
    case NoTag(path, r) => Subject(r) && r.DigestOnly? && exists f :: f in files && f.path == path && Mentions(f, r)
    case NoDigest(path, r) =>
      Subject(r) && r.Tagged? && r.digest == None && exists f :: f in files && f.path == path && Mentions(f, r)
    case NoReferences(path) => exists f :: f in files && f.path == path && f.inventory && !HasImages(f)
    case Inconsistent(name, tag) =>
      exists r, s :: Occurs(files, r) && Occurs(files, s) && Subject(r) && Subject(s) && Pinned(r) && Pinned(s) &&
                     r.name == s.name == name && r.tag == s.tag == tag && r.digest != s.digest
  }

  /** The audit of all sources reports exactly what is wrong, and passes exactly when every image
      that is not exempt has a tag and a digest, name and tag determine the digest across all
      files, and every inventory still yields a reference. */
  method Audit(files: seq<File>) returns (ok: bool, report: seq<Failure>)
    ensures forall x :: x in report <==> Deserved(files, x)
    ensures ok <==> AllPinned(files) && OneDigest(files) && Covered(files)
  {
    var gate := new Gate();
    for i := 0 to |files|
      invariant gate.Valid()
      invariant forall r :: r in gate.read <==> Occurs(files[..i], r) && Subject(r)
      invariant forall x :: x in gate.failures <==> exists f :: f in files[..i] && FaultyIn(f, x)
    {
      gate.CheckFile(files[i]);
      OccursNext(files, i);
      assert files[..i + 1] == files[..i] + [files[i]];
    }
    assert files[..|files|] == files;
    gate.Compare();
    report := gate.failures;
    forall x ensures x in report <==> Deserved(files, x) { ReportedIff(files, gate.seen, gate.read, x); }
    ok := report == [];
    NothingDeservedIff(files);
    assert report != [] ==> Deserved(files, report[0]);
  }

  lemma ReportedIff(files: seq<File>, seen: map<Key, seq<string>>, read: set<Reference>, x: Failure)
    requires Recorded(seen, read) && forall r :: r in read <==> Occurs(files, r) && Subject(r)
    ensures Deserved(files, x) <==> (exists f :: f in files && FaultyIn(f, x)) || Disagrees(seen, x)
  {
    if x.Inconsistent? { DisagreesIff(seen, read, x); }
  }

  lemma DisagreesIff(seen: map<Key, seq<string>>, read: set<Reference>, x: Failure)
    requires Recorded(seen, read) && x.Inconsistent?
    ensures Disagrees(seen, x) <==>
            exists r, s :: r in read && s in read && Pinned(r) && Pinned(s) && r.name == s.name == x.name &&
                           r.tag == s.tag == x.tag && r.digest != s.digest
  {
    var k := (x.name, x.tag);
    if Disagrees(seen, x) {
      var d, e :| d in seen[k] && e in seen[k] && d != e;
      assert HasSource(read, k, d) && HasSource(read, k, e);
    }
  }

  lemma NothingDeservedIff(files: seq<File>)
    ensures (forall x :: !Deserved(files, x)) <==> AllPinned(files) && OneDigest(files) && Covered(files)
  {
    if forall x :: !Deserved(files, x) { UndeservedPasses(files); }
  }

  /** `r` is written in a source and is neither of the two exempt literals. */
  ghost predicate Among(files: seq<File>, r: Reference) {
    && r.literal != "127.0.0.1:31999" && r.literal != "localhost:5001/knr-ops-airgap:latest"
    && exists f, line :: f in files && line in f.lines && r in line
  }

  /** An inventory that yields something other than the literal that is no image. */
  ghost predicate Yields(f: File) {
    exists line, r :: line in f.lines && r in line && r.literal != "127.0.0.1:31999"
  }

  lemma AmongIff(files: seq<File>, r: Reference)
    ensures Among(files, r) <==> Occurs(files, r) && Subject(r)
  {
    if Occurs(files, r) {
      var i :| 0 <= i < |files| && Mentions(files[i], r);
      var j :| 0 <= j < |files[i].lines| && r in files[i].lines[j];
      assert files[i] in files && files[i].lines[j] in files[i].lines;
    }
    if f, line :| f in files && line in f.lines && r in line { assert Mentions(f, r); }
  }

  lemma YieldsIff(f: File)
    ensures Yields(f) <==> HasImages(f)
  {
    if line, r :| line in f.lines && r in line && r.literal != "127.0.0.1:31999" { assert Mentions(f, r); }
    if r :| Mentions(f, r) && IsImage(r) {
      var j :| 0 <= j < |f.lines| && r in f.lines[j];
      assert f.lines[j] in f.lines;
    }
  }

  /** The audit passes exactly when, written out, every image has a tag and a digest, equal names
      and tags have equal digests, and every inventory yields something. */
  lemma PassesIff(files: seq<File>)
    ensures AllPinned(files) && OneDigest(files) && Covered(files) <==>
            && (forall r :: Among(files, r) ==> r.Tagged? && r.digest.Some?)
            && (forall r, s :: (Among(files, r) && Among(files, s) && r.Tagged? && s.Tagged? &&
                                r.name == s.name && r.tag == s.tag) ==> r.digest == s.digest)
            && (forall f :: f in files && f.inventory ==> Yields(f))
  {
    forall r ensures Among(files, r) <==> Occurs(files, r) && Subject(r) { AmongIff(files, r); }
    forall f ensures Yields(f) <==> HasImages(f) { YieldsIff(f); }
    MembersCovered(files);
  }

  lemma MembersCovered(files: seq<File>)
    ensures Covered(files) <==> forall f :: f in files && f.inventory ==> HasImages(f)
  {
    if forall f :: f in files && f.inventory ==> HasImages(f) {
      forall i | 0 <= i < |files| && files[i].inventory ensures HasImages(files[i]) { assert files[i] in files; }
    }
  }

  lemma UndeservedPasses(files: seq<File>)
    requires forall x :: !Deserved(files, x)
    ensures AllPinned(files) && OneDigest(files) && Covered(files)
  {
    forall r | Occurs(files, r) && Subject(r) ensures Pinned(r) {
      var i :| 0 <= i < |files| && Mentions(files[i], r);
      assert !Deserved(files, NoTag(files[i].path, r)) && !Deserved(files, NoDigest(files[i].path, r));
    }
    forall i | 0 <= i < |files| && files[i].inventory ensures HasImages(files[i]) {
      assert !Deserved(files, NoReferences(files[i].path));
    }
    forall r, s | Occurs(files, r) && Occurs(files, s) && Subject(r) && Subject(s) && Pinned(r) && Pinned(s) &&
                  r.name == s.name && r.tag == s.tag
      ensures r.digest == s.digest
    {
      assert !Deserved(files, Inconsistent(r.name, r.tag));
    }
  }

  lemma OccursNext(files: seq<File>, i: nat)
    requires i < |files|
    ensures forall r :: Occurs(files[..i + 1], r) <==> Occurs(files[..i], r) || Mentions(files[i], r)
  {
    assert files[..i + 1] == files[..i] + [files[i]];
    forall r ensures Occurs(files[..i + 1], r) <==> Occurs(files[..i], r) || Mentions(files[i], r) {
      if Occurs(files[..i], r) {
        var k :| 0 <= k < i && Mentions(files[..i][k], r);
        assert files[..i + 1][k] == files[..i][k];
      }
      if Mentions(files[i], r) { assert Mentions(files[..i + 1][i], r); }
      if Occurs(files[..i + 1], r) {
        var k :| 0 <= k < i + 1 && Mentions(files[..i + 1][k], r);
        assert k < i ==> Mentions(files[..i][k], r);
      }
    }
  }
}
