/**
  Publishing a signed release (scripts/publish_rendezvous_release.py, `publish`). A release is
  an append-only store of named assets. A run may break off after any subset of its uploads,
  and a later run may bring another archive.
  */
module Publication {
  import opened Wrappers
  import opened StableSort

  type Assets = map<string, string>

  /** The checksum is a digest in hex; signatures are checked against a text and a key. */
  datatype Crypto = Crypto(digest: string -> string, verifies: (string, string, string) -> bool)

  /** Digests do not collide, and a signature is valid for one text only. */
  ghost predicate Ideal(c: Crypto) {
    && (forall a, b :: c.digest(a) == c.digest(b) ==> a == b)
    && (forall sig, t, u, k, l :: c.verifies(sig, t, k) && c.verifies(sig, u, l) ==> t == u)
  }

  function ChecksumName(name: string): string {
    name + ".sha256"
  }

  function SignatureName(name: string): string {
    name + ".sha256" + ".asc"
  }

  function ChecksumText(c: Crypto, name: string, archive: string): string {
    c.digest(archive) + "  " + name + "\n"
  }

  /** A text file as it is read back: every line ending becomes a newline. */
  function ReadText(bytes: string): string {
    if bytes == "" then ""
    else if bytes[0] == '\r' then
      "\n" + ReadText(if |bytes| > 1 && bytes[1] == '\n' then bytes[2..] else bytes[1..])
    else [bytes[0]] + ReadText(bytes[1..])
  }

  /** The checksum file describes the archive, whatever its line endings. */
  predicate Describes(c: Crypto, name: string, checksum: string, archive: string) {
    ReadText(checksum) == ChecksumText(c, name, archive)
  }

  /** What one run brings along, and how much of its upload gets through. */
  datatype Attempt = Attempt(
    archive: string,
    checksum: string,              // the local checksum file
    accepted: bool,                // repository, fingerprint, archive and release are acceptable
    key: string,
    signature: Option<string>,     // what signing yields, if it is needed and succeeds
    delivered: set<string>)        // asset names the upload reaches before it breaks off

  /** The local file behind an asset name. */
  function Payload(name: string, a: Attempt, asset: string): string {
    if asset == name then a.archive
    else if asset == ChecksumName(name) then a.checksum
    else a.signature.GetOr("")
  }

  predicate SameBytes(assets: Assets, asset: string, payload: string) {
    asset in assets ==> assets[asset] == payload
  }

  /** The uploads a run decides on, or the reason it stops before uploading anything. */
  function Plan(c: Crypto, name: string, assets: Assets, a: Attempt): Result<seq<string>> {
    if !a.accepted then Err("rejected before publication")
    else if !Describes(c, name, a.checksum, a.archive) then Err("checksum does not describe the archive")
    else if !SameBytes(assets, name, a.archive) then Err("existing archive has different bytes")
    else if !SameBytes(assets, ChecksumName(name), a.checksum) then Err("existing checksum has different bytes")
    else
      var uploads := (if name in assets then [] else [name]) +
                     (if ChecksumName(name) in assets then [] else [ChecksumName(name)]);
      if SignatureName(name) in assets then
        if c.verifies(assets[SignatureName(name)], a.checksum, a.key)
        then Ok(uploads) else Err("invalid release checksum signature")
      else if a.signature.None? then Err("signing failed")
      else if !c.verifies(a.signature.value, a.checksum, a.key) then Err("invalid release checksum signature")
      else Ok(uploads + [SignatureName(name)])
  }

  /** The release after the run: the planned uploads that got through are added. */
  function Publish(c: Crypto, name: string, assets: Assets, a: Attempt): Assets {
    var plan := Plan(c, name, assets, a);
    if plan.Err? then assets
    else assets + map n | n in plan.value && n in a.delivered :: Payload(name, a, n)
  }

  /** The release store, and a run against it. */
  class Release {
    var assets: Assets

    /** `publish` */
    method Run(c: Crypto, name: string, a: Attempt) returns (uploads: Result<seq<string>>)
      modifies this
      ensures uploads == Plan(c, name, old(assets), a)
      ensures assets == Publish(c, name, old(assets), a)
    {
      if !a.accepted {
        return Err("rejected before publication");
      }
      if !Describes(c, name, a.checksum, a.archive) {
        return Err("checksum does not describe the archive");
      }
      var payloads := [(name, a.archive, "existing archive has different bytes"),
                       (ChecksumName(name), a.checksum, "existing checksum has different bytes")];
      var pending: seq<string> := [];
      for i := 0 to 2
        invariant i >= 1 ==> SameBytes(assets, name, a.archive)
        invariant i >= 2 ==> SameBytes(assets, ChecksumName(name), a.checksum)
        invariant pending == (if i >= 1 && name !in assets then [name] else []) +
                             (if i >= 2 && ChecksumName(name) !in assets then [ChecksumName(name)] else [])
        invariant assets == old(assets)
      {
        if payloads[i].0 in assets {
          if assets[payloads[i].0] != payloads[i].1 {
            return Err(payloads[i].2);
          }
        } else {
          pending := pending + [payloads[i].0];
        }
      }
      if SignatureName(name) in assets {
        if !c.verifies(assets[SignatureName(name)], a.checksum, a.key) {
          return Err("invalid release checksum signature");
        }
      } else {
        if a.signature.None? {
          return Err("signing failed");
        }
        if !c.verifies(a.signature.value, a.checksum, a.key) {
          return Err("invalid release checksum signature");
        }
        pending := pending + [SignatureName(name)];
      }
      assets := assets + map n | n in pending && n in a.delivered :: Payload(name, a, n);
      uploads := Ok(pending);
    }
  }

  // ---------------------------------------------------------------------------
  // One build
  // ---------------------------------------------------------------------------

  ghost predicate SignedFor(c: Crypto, signature: string, text: string) {
    exists key :: c.verifies(signature, text, key)
  }

  /** Whatever of the release is published belongs to this archive and this checksum file. */
  ghost predicate Fits(c: Crypto, name: string, assets: Assets, archive: string, checksum: string) {
    && Describes(c, name, checksum, archive)
    && SameBytes(assets, name, archive)
    && SameBytes(assets, ChecksumName(name), checksum)
    && (SignatureName(name) in assets ==> SignedFor(c, assets[SignatureName(name)], checksum))
  }

  /** Some part of the release that depends on the checksum file's bytes is published. */
  predicate ChecksumSettled(name: string, assets: Assets) {
    ChecksumName(name) in assets || SignatureName(name) in assets
  }

  predicate AnyPublished(name: string, assets: Assets) {
    name in assets || ChecksumSettled(name, assets)
  }

  lemma NamesDiffer(name: string)
    ensures name != ChecksumName(name) && name != SignatureName(name) && ChecksumName(name) != SignatureName(name)
  {
    assert |ChecksumName(name)| == |name| + 7 && |SignatureName(name)| == |name| + 11;
  }

  lemma ChecksumTextInjective(c: Crypto, name: string, a: string, b: string)
    requires Ideal(c) && ChecksumText(c, name, a) == ChecksumText(c, name, b)
    ensures a == b
  {
    var x, y, tail := c.digest(a), c.digest(b), "  " + name + "\n";
    assert ChecksumText(c, name, a) == x + tail && ChecksumText(c, name, b) == y + tail;
    assert |x| == |y|;
    assert x == (x + tail)[..|x|] && y == (y + tail)[..|y|];
  }

  /** As soon as anything is published the archive is settled, and with it soon the checksum file. */
  lemma BuildIsUnique(c: Crypto, name: string, assets: Assets, a: string, t: string, b: string, u: string)
    requires Ideal(c) && AnyPublished(name, assets)
    requires Fits(c, name, assets, a, t) && Fits(c, name, assets, b, u)
    ensures a == b && (ChecksumSettled(name, assets) ==> t == u)
  {
    if ChecksumSettled(name, assets) {
      assert t == u by {
        if ChecksumName(name) !in assets {
          var sig := assets[SignatureName(name)];
          var k :| c.verifies(sig, t, k);
          var l :| c.verifies(sig, u, l);
        }
      }
      ChecksumTextInjective(c, name, a, b);
    }
  }

  /** A run that gets past its checks agrees with everything published and adds to it. */
  lemma PublishKeepsBuild(c: Crypto, name: string, assets: Assets, a: Attempt)
    requires Plan(c, name, assets, a).Ok?
    ensures Fits(c, name, assets, a.archive, a.checksum)
    ensures Fits(c, name, Publish(c, name, assets, a), a.archive, a.checksum)
  {
    hide Describes;
    NamesDiffer(name);
    if SignatureName(name) in assets {
      assert c.verifies(assets[SignatureName(name)], a.checksum, a.key);
    } else {
      assert c.verifies(a.signature.value, a.checksum, a.key);
    }
  }

  /** Published bytes never change, and nothing but the three assets is ever added. */
  lemma PublishOnlyAdds(c: Crypto, name: string, assets: Assets, a: Attempt)
    ensures var assets' := Publish(c, name, assets, a);
            && (forall n :: n in assets ==> n in assets' && assets'[n] == assets[n])
            && assets'.Keys <= assets.Keys + {name, ChecksumName(name), SignatureName(name)}
  {
    hide Describes;
  }

  /** The uploads decided on are exactly the assets that are missing, each once. */
  lemma PlanIsWhatIsMissing(c: Crypto, name: string, assets: Assets, a: Attempt)
    requires Plan(c, name, assets, a).Ok?
    ensures var plan := Plan(c, name, assets, a).value;
            && NoDuplicates(plan)
            && forall n :: n in plan <==> n in {name, name + ".sha256", name + ".sha256.asc"} && n !in assets
  {
    hide Describes;
    NamesDiffer(name);
    assert SignatureName(name) == name + ".sha256.asc";
  }

  /** After a run there is what was there before, and the planned uploads that got through, as they are locally. */
  lemma PublishIsExact(c: Crypto, name: string, assets: Assets, a: Attempt)
    ensures var (plan, assets') := (Plan(c, name, assets, a), Publish(c, name, assets, a));
            && (plan.Err? ==> assets' == assets)
            && (plan.Ok? ==>
                  && (forall n :: n in assets' <==> n in assets || (n in plan.value && n in a.delivered))
                  && (forall n :: n in assets' && n !in assets ==>
                        (n == name && assets'[n] == a.archive) ||
                        (n == ChecksumName(name) && assets'[n] == a.checksum) ||
                        (n == SignatureName(name) && a.signature == Some(assets'[n]))))
  {
    hide Describes;
    NamesDiffer(name);
  }

  // ---------------------------------------------------------------------------
  // Every sequence of runs
  // ---------------------------------------------------------------------------

  ghost predicate IsHistory(c: Crypto, name: string, releases: seq<Assets>, attempts: seq<Attempt>) {
    && |releases| == |attempts| + 1
    && (AnyPublished(name, releases[0]) ==>
          exists archive, checksum :: Fits(c, name, releases[0], archive, checksum))
    && forall i :: 0 <= i < |attempts| ==> releases[i + 1] == Publish(c, name, releases[i], attempts[i])
  }

  lemma {:induction false} HistoryFits(c: Crypto, name: string, releases: seq<Assets>, attempts: seq<Attempt>, i: nat)
    returns (archive: string, checksum: string)
    requires IsHistory(c, name, releases, attempts) && i < |releases| && AnyPublished(name, releases[i])
    ensures Fits(c, name, releases[i], archive, checksum)
  {
    if i == 0 {
      archive, checksum :| Fits(c, name, releases[0], archive, checksum);
    } else if Plan(c, name, releases[i - 1], attempts[i - 1]).Ok? {
      PublishKeepsBuild(c, name, releases[i - 1], attempts[i - 1]);
      archive, checksum := attempts[i - 1].archive, attempts[i - 1].checksum;
    } else {
      archive, checksum := HistoryFits(c, name, releases, attempts, i - 1);
    }
  }

  lemma {:induction false} HistoryOnlyAdds(
    c: Crypto, name: string, releases: seq<Assets>, attempts: seq<Attempt>, i: nat, j: nat)
    requires IsHistory(c, name, releases, attempts) && i <= j < |releases|
    ensures forall n :: n in releases[i] ==> n in releases[j] && releases[j][n] == releases[i][n]
  {
    hide Plan, Publish, Fits;
    if i < j {
      HistoryOnlyAdds(c, name, releases, attempts, i, j - 1);
      PublishOnlyAdds(c, name, releases[j - 1], attempts[j - 1]);
    }
  }

  /** What fits the release later also fits what was there before. */
  lemma FitsEarlier(c: Crypto, name: string, before: Assets, later: Assets, archive: string, checksum: string)
    requires Fits(c, name, later, archive, checksum)
    requires forall n :: n in before ==> n in later && later[n] == before[n]
    ensures Fits(c, name, before, archive, checksum)
  {
  }

  /**
    Over every sequence of runs, interrupted or not and with whatever archives, checksum files and
    keys, published bytes never change. From the first published asset on the release belongs to
    one archive for good, and from the first checksum or signature on to one checksum file.
    */
  lemma OneBuildForGood(
    c: Crypto, name: string, releases: seq<Assets>, attempts: seq<Attempt>, i: nat, j: nat,
    archive: string, checksum: string)
    returns (later: string)
    requires Ideal(c) && IsHistory(c, name, releases, attempts) && i <= j < |releases|
    requires AnyPublished(name, releases[i]) && Fits(c, name, releases[i], archive, checksum)
    ensures forall n :: n in releases[i] ==> n in releases[j] && releases[j][n] == releases[i][n]
    ensures Fits(c, name, releases[j], archive, later)
    ensures ChecksumSettled(name, releases[i]) ==> later == checksum
  {
    hide Fits, Publish;
    HistoryOnlyAdds(c, name, releases, attempts, i, j);
    var found;
    found, later := HistoryFits(c, name, releases, attempts, j);
    FitsEarlier(c, name, releases[i], releases[j], found, later);
    BuildIsUnique(c, name, releases[i], archive, checksum, found, later);
  }

  // ---------------------------------------------------------------------------
  // Retries
  // ---------------------------------------------------------------------------

  /** The run can vouch for its checksum file: the published signature is its key's, or it can sign. */
  predicate CanSign(c: Crypto, name: string, assets: Assets, a: Attempt) {
    if SignatureName(name) in assets then c.verifies(assets[SignatureName(name)], a.checksum, a.key)
    else a.signature.Some? && c.verifies(a.signature.value, a.checksum, a.key)
  }

  /** A run passes its checks exactly when it brings the published build and can sign for it. */
  lemma AcceptedIff(c: Crypto, name: string, assets: Assets, a: Attempt)
    ensures Plan(c, name, assets, a).Ok? <==>
            a.accepted && Fits(c, name, assets, a.archive, a.checksum) && CanSign(c, name, assets, a)
  {
    hide Describes;
    if Plan(c, name, assets, a).Ok? {
      PublishKeepsBuild(c, name, assets, a);
    }
  }

  /**
    A retry with the published archive passes if and only if its checksum file is the published
    one byte for byte, once a checksum or signature is there, and it can sign for it.
    */
  lemma RetryPassesIff(c: Crypto, name: string, assets: Assets, checksum: string, a: Attempt)
    requires Ideal(c) && Fits(c, name, assets, a.archive, checksum)
    requires a.accepted && Describes(c, name, a.checksum, a.archive)
    ensures Plan(c, name, assets, a).Ok? <==>
            (ChecksumSettled(name, assets) ==> a.checksum == checksum) && CanSign(c, name, assets, a)
  {
    hide Describes;
    AcceptedIff(c, name, assets, a);
    if Plan(c, name, assets, a).Ok? && ChecksumSettled(name, assets) {
      BuildIsUnique(c, name, assets, a.archive, checksum, a.archive, a.checksum);
    }
  }

  /** All three assets are there, from this build and signed by this key: nothing is left to do. */
  predicate Complete(name: string, assets: Assets, a: Attempt, c: Crypto) {
    && name in assets && assets[name] == a.archive
    && ChecksumName(name) in assets && assets[ChecksumName(name)] == a.checksum
    && SignatureName(name) in assets && c.verifies(assets[SignatureName(name)], a.checksum, a.key)
  }

  /** An uninterrupted run that passes its checks completes the set. */
  lemma RetryCompletes(c: Crypto, name: string, assets: Assets, a: Attempt)
    requires Plan(c, name, assets, a).Ok?
    requires {name, ChecksumName(name), SignatureName(name)} <= a.delivered
    ensures Complete(name, Publish(c, name, assets, a), a, c)
  {
    hide Describes;
    NamesDiffer(name);
    var plan := Plan(c, name, assets, a);
    assert name in assets || name in plan.value;
    assert ChecksumName(name) in assets || ChecksumName(name) in plan.value;
    assert SignatureName(name) in assets || SignatureName(name) in plan.value;
  }

  /** Once complete, a run with the same build and key succeeds and uploads nothing. */
  lemma FurtherRunUploadsNothing(c: Crypto, name: string, assets: Assets, a: Attempt)
    requires Complete(name, assets, a, c)
    requires a.accepted && Describes(c, name, a.checksum, a.archive)
    ensures Plan(c, name, assets, a) == Ok([])
    ensures Publish(c, name, assets, a) == assets
  {
    hide Describes;
    var none: seq<string> := [];
    assert none + none == none;
  }

  // ---------------------------------------------------------------------------
  // Line endings
  // ---------------------------------------------------------------------------

  lemma {:induction false} ReadTextPlain(s: string, tail: string)
    requires '\r' !in s
    ensures ReadText(s + tail) == s + ReadText(tail)
  {
    if s == "" {
      assert s + tail == tail;
    } else {
      assert (s + tail)[1..] == s[1..] + tail;
      ReadTextPlain(s[1..], tail);
      assert s == [s[0]] + s[1..];
    }
  }

  lemma {:induction false} ReadTextEnding(rest: string)
    ensures ReadText("\n" + rest) == "\n" + ReadText(rest)
    ensures ReadText("\r\n" + rest) == "\n" + ReadText(rest)
    ensures !("\n" <= rest) ==> ReadText("\r" + rest) == "\n" + ReadText(rest)
  {
    assert ("\n" + rest)[1..] == rest;
    assert ("\r\n" + rest)[2..] == rest;
    assert ("\r" + rest)[1..] == rest;
    assert !("\n" <= rest) ==> rest == "" || rest[0] != '\n';
  }

  lemma Regroup(a: string, b: string, c: string)
    ensures a + b + c == a + (b + c)
  {
  }

  /** Reading back determined line by line: each of the three line endings becomes a newline. */
  lemma {:induction false} ReadTextLine(line: string, ending: string, rest: string)
    requires '\r' !in line
    requires ending == "\n" || ending == "\r\n" || (ending == "\r" && !("\n" <= rest))
    ensures ReadText(line) == line
    ensures ReadText(line + ending + rest) == line + "\n" + ReadText(rest)
  {
    ReadTextPlain(line, "");
    assert line + "" == line;
    ReadTextPlain(line, ending + rest);
    hide ReadText;
    ReadTextEnding(rest);
    Regroup(line, ending, rest);
    Regroup(line, "\n", ReadText(rest));
  }

  /** The same checksum with a carriage return before its newline describes the archive as well. */
  lemma LineEndingsDescribe(c: Crypto, name: string, archive: string)
    requires '\r' !in c.digest(archive) && '\r' !in name
    ensures var line := c.digest(archive) + "  " + name;
            Describes(c, name, line + "\n", archive) && Describes(c, name, line + "\r\n", archive)
  {
    var line := c.digest(archive) + "  " + name;
    ReadTextPlain(line, "\n");
    ReadTextPlain(line, "\r\n");
    assert ReadText("") == "";
    assert ReadText("\n") == "\n" && ReadText("\r\n") == "\n";
  }

  /** So a release published with one line ending refuses a retry of the same archive with the other. */
  lemma LineEndingBlocksRetry(c: Crypto, name: string, assets: Assets, a: Attempt)
    requires '\r' !in c.digest(a.archive) && '\r' !in name
    requires ChecksumName(name) in assets && assets[ChecksumName(name)] == c.digest(a.archive) + "  " + name + "\r\n"
    requires a.checksum == c.digest(a.archive) + "  " + name + "\n"
    ensures Describes(c, name, assets[ChecksumName(name)], a.archive) && Describes(c, name, a.checksum, a.archive)
    ensures Plan(c, name, assets, a).Err?
  {
    LineEndingsDescribe(c, name, a.archive);
    assert |assets[ChecksumName(name)]| == |a.checksum| + 1;
  }
}
