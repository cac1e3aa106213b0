/** The cluster provisioner's command-line interface: the email and SSH-key
    validators, the SSH command formatter, the empty-key guard of key
    removal, and the register / claim / relinquish commands over the
    provisioner's user and cluster records. */
module ProvisionerCli {
  import opened Common
  import opened Strings

  // ---------------------------------------------------------------------
  // EMAIL_REGEX = ^[a-zA-Z0-9._%+-]+@[a-zA-Z0-9.-]+\.[a-zA-Z]{2,}$

  predicate Letter(c: char) {
    ('a' <= c <= 'z') || ('A' <= c <= 'Z')
  }

  /** `[a-zA-Z0-9._%+-]`. */
  predicate LocalChar(c: char) {
    Letter(c) || IsDigit(c) || c == '.' || c == '_' || c == '%' || c == '+' || c == '-'
  }

  /** `[a-zA-Z0-9.-]`. */
  predicate DomainChar(c: char) {
    Letter(c) || IsDigit(c) || c == '.' || c == '-'
  }

  predicate LocalRange(s: string, lo: int, hi: int)
    requires 0 <= lo <= hi <= |s|
  {
    forall t :: lo <= t < hi ==> LocalChar(s[t])
  }

  predicate DomainRange(s: string, lo: int, hi: int)
    requires 0 <= lo <= hi <= |s|
  {
    forall t :: lo <= t < hi ==> DomainChar(s[t])
  }

  predicate LetterRange(s: string, lo: int, hi: int)
    requires 0 <= lo <= hi <= |s|
  {
    forall t :: lo <= t < hi ==> Letter(s[t])
  }

  /** The pattern without its anchors matches all of `b` with the "@" at `i`
      and the escaped "." at `j`: local characters before the "@", domain
      characters between it and the ".", and at least two letters after. */
  predicate EmailSplitAt(b: string, i: int, j: int) {
    && 0 < i && i + 1 < j && j + 2 < |b|
    && b[i] == '@' && b[j] == '.'
    && LocalRange(b, 0, i) && DomainRange(b, i + 1, j) && LetterRange(b, j + 1, |b|)
  }

  ghost predicate EmailBody(b: string) {
    exists i, j :: EmailSplitAt(b, i, j)
  }

  /** `re.match(EMAIL_REGEX, s)` succeeds: `re.match` anchors at the start,
      and `$` matches at the end or just before one final newline. */
  ghost predicate MatchesEmailRegex(s: string) {
    EmailBody(s) || (|s| > 0 && s[|s| - 1] == '\n' && EmailBody(s[..|s| - 1]))
  }

  /** The length of the longest run of letters ending `r`. */
  function LetterSuffix(r: string): (k: nat)
    ensures k <= |r| && LetterRange(r, |r| - k, |r|)
    ensures k < |r| ==> !Letter(r[|r| - k - 1])
  {
    if |r| == 0 || !Letter(r[|r| - 1]) then 0 else 1 + LetterSuffix(r[..|r| - 1])
  }

  /** The scan of an email without its final newline: the first "@" has
      local characters before it and domain characters after it, and the
      final run of at least two letters follows a "." that is not right after
      the "@". */
  predicate BodyOk(b: string) {
    && '@' in b
    && var i := IndexOf(b, '@');
      && 0 < i && LocalRange(b, 0, i) && DomainRange(b, i + 1, |b|)
      && var k := LetterSuffix(b);
        2 <= k && i + k + 2 < |b| && b[|b| - k - 1] == '.'
  }

  /** `is_valid_email`, as a direct scan: drop one final newline, cut at the
      first "@", and check both sides. */
  predicate IsValidEmail(email: string) {
    var b := if |email| > 0 && email[|email| - 1] == '\n' then email[..|email| - 1] else email;
    BodyOk(b)
  }

  /** A letter run ending `r` that is preceded by a non-letter is the longest one. */
  lemma {:induction false} LetterSuffixExact(r: string, m: nat)
    requires m <= |r| && LetterRange(r, |r| - m, |r|)
    requires m < |r| ==> !Letter(r[|r| - m - 1])
    ensures LetterSuffix(r) == m
  {
    if m > 0 {
      LetterSuffixExact(r[..|r| - 1], m - 1);
    }
  }

  /** What the scan accepts, the unanchored pattern matches whole. */
  lemma BodyOkMatches(b: string)
    requires BodyOk(b)
    ensures EmailBody(b)
  {
    var i := IndexOf(b, '@');
    var k := LetterSuffix(b);
    assert EmailSplitAt(b, i, |b| - k - 1);
  }

  /** What the unanchored pattern matches whole, the scan accepts: the "@"
      of any match is the first one, and its "." starts the final letter run. */
  lemma SplitAtBodyOk(b: string, i: int, j: int)
    requires EmailSplitAt(b, i, j)
    ensures BodyOk(b)
  {
    forall t | 0 <= t < i ensures b[..i][t] != '@' {
      assert LocalChar(b[t]);
    }
    IndexOfAt(b, '@', i);
    forall t | i + 1 <= t < |b| ensures DomainChar(b[t]) {
      if t > j {
        assert Letter(b[t]);
      }
    }
    LetterSuffixExact(b, |b| - j - 1);
  }

  /** The scan accepts exactly the texts the unanchored pattern matches whole. */
  lemma BodyOkIff(b: string)
    ensures BodyOk(b) <==> EmailBody(b)
  {
    if BodyOk(b) {
      BodyOkMatches(b);
    }
    if EmailBody(b) {
      var i, j :| EmailSplitAt(b, i, j);
      SplitAtBodyOk(b, i, j);
    }
  }

  /** A text ending in a newline cannot match the pattern whole: its last
      character is not a letter. */
  lemma NewlineEndNoBody(s: string, i: int, j: int)
    requires |s| > 0 && s[|s| - 1] == '\n'
    ensures !EmailSplitAt(s, i, j)
  {
  }

  /** `is_valid_email` accepts exactly what `re.match(EMAIL_REGEX, ...)` matches. */
  lemma ValidEmailIffRegex(email: string)
    ensures IsValidEmail(email) <==> MatchesEmailRegex(email)
  {
    if |email| > 0 && email[|email| - 1] == '\n' {
      forall i, j ensures !EmailSplitAt(email, i, j) {
        NewlineEndNoBody(email, i, j);
      }
      BodyOkIff(email[..|email| - 1]);
    } else {
      BodyOkIff(email);
    }
  }

  /** A plain address is accepted. */
  lemma EmailAccepted()
    ensures IsValidEmail("a@b.io")
  {
    var e := "a@b.io";
    assert EmailSplitAt(e, 1, 3);
    SplitAtBodyOk(e, 1, 3);
  }

  /** One final newline is dropped before the scan. */
  lemma ValidEmailNewline(e: string)
    ensures IsValidEmail(e + "\n") == BodyOk(e)
  {
    assert (e + "\n")[..|e|] == e;
  }

  /** The same address with a final newline, which `$` also admits, is accepted. */
  lemma EmailNewlineAccepted()
    ensures IsValidEmail("a@b.io\n")
  {
    var e := "a@b.io";
    assert EmailSplitAt(e, 1, 3);
    SplitAtBodyOk(e, 1, 3);
    ValidEmailNewline(e);
    assert e + "\n" == "a@b.io\n";
  }

  /** A one-letter top-level domain is refused. */
  lemma EmailShortTldRefused()
    ensures !IsValidEmail("a@b.c")
  {
    var e := "a@b.c";
    LetterSuffixExact(e, 1);
  }

  // ---------------------------------------------------------------------
  // SSH keys and commands

  /** The key-format check of `register`; the first two prefixes include a space. */
  predicate ValidSshKey(key: string) {
    StartsWith(key, "ssh-rsa ") || StartsWith(key, "ssh-ed25519 ") || StartsWith(key, "ecdsa-sha2-nistp")
  }

  /** A key that passes the format check is never blank after stripping, so
      the empty-key guard of key removal never refuses a registered key. */
  lemma ValidKeyNotBlank(key: string)
    requires ValidSshKey(key)
    ensures Strip(key) != ""
  {
    assert key[0] == 's' || key[0] == 'e';
    assert TrimLeft(key) == key;
    TrimRightKeepsFirst(key);
  }

  /** Trailing whitespace removal keeps a first character that is not whitespace. */
  lemma {:induction false} TrimRightKeepsFirst(s: string)
    requires |s| > 0 && !IsSpace(s[0])
    ensures |TrimRight(s)| > 0
  {
    if |s| > 1 && IsSpace(s[|s| - 1]) {
      TrimRightKeepsFirst(s[..|s| - 1]);
    }
  }

  /** The type word must be followed by a space, except for ECDSA keys. */
  lemma SshKeyExamples()
    ensures ValidSshKey("ssh-rsa AAAA") && ValidSshKey("ecdsa-sha2-nistp256 AAAA")
    ensures !ValidSshKey("ssh-rsa") && !ValidSshKey("ssh-ed25519AAAA")
  {
    assert "ssh-rsa AAAA"[..8] == "ssh-rsa ";
    assert "ecdsa-sha2-nistp256 AAAA"[..16] == "ecdsa-sha2-nistp";
    assert "ssh-ed25519AAAA"[..8][4] == 'e';
    assert "ssh-ed25519AAAA"[..12][11] == 'A';
  }

  /** The text of a Python IndexError. */
  const IndexErrorText: string := "list index out of range"

  /** `_format_ssh_command` on a login entry `[client_id, user, hostname, port]`:
      the provisioner's user, the entry's host and port; a short entry raises
      IndexError. */
  function FormatSsh(entry: seq<string>, sshUser: string): (r: Result<string, string>)
    ensures r.Ok? <==> |entry| >= 4
    ensures r.Err? ==> r.error == IndexErrorText
    ensures r.Ok? ==> r.value == "ssh " + sshUser + "@" + entry[2] + " -p " + entry[3]
  {
    if |entry| < 4 then Err(IndexErrorText)
    else Ok("ssh " + sshUser + "@" + entry[2] + " -p " + entry[3])
  }

  lemma JoinFour(a: string, b: string, c: string, d: string, sep: char)
    ensures Join([a, b, c, d], sep) == a + [sep] + b + [sep] + c + [sep] + d
  {
    assert [c, d][1..] == [d];
    assert Join([c, d], sep) == c + [sep] + d;
    assert [b, c, d][1..] == [c, d];
    assert Join([b, c, d], sep) == b + [sep] + (c + [sep] + d);
    assert [a, b, c, d][1..] == [b, c, d];
    assert Join([a, b, c, d], sep) == a + [sep] + (b + [sep] + (c + [sep] + d));
  }

  /** The command does not depend on the entry's client id or its user name. */
  lemma FormatSshIgnoresUser(e1: seq<string>, e2: seq<string>, sshUser: string)
    requires |e1| >= 4 && |e2| >= 4 && e1[2] == e2[2] && e1[3] == e2[3]
    ensures FormatSsh(e1, sshUser) == FormatSsh(e2, sshUser)
  {
  }

  /** With space-free fields, splitting the command at spaces gives back the
      user and host, the port flag and the port. */
  lemma FormatSshSplits(entry: seq<string>, sshUser: string)
    requires |entry| >= 4
    requires ' ' !in sshUser && ' ' !in entry[2] && ' ' !in entry[3]
    ensures Split(FormatSsh(entry, sshUser).value, ' ') == ["ssh", sshUser + "@" + entry[2], "-p", entry[3]]
  {
    var parts := ["ssh", sshUser + "@" + entry[2], "-p", entry[3]];
    forall k | 0 <= k < |parts[1]| ensures parts[1][k] != ' ' {
      if k < |sshUser| {
        assert parts[1][k] == sshUser[k];
      } else if k > |sshUser| {
        assert parts[1][k] == entry[2][k - |sshUser| - 1];
      }
    }
    JoinFour(parts[0], parts[1], parts[2], parts[3], ' ');
    assert FormatSsh(entry, sshUser).value == Join(parts, ' ');
    SplitJoin(parts, ' ');
  }

  /** The login entries, each formatted and indented, as the claim command
      prints them; the first short entry raises IndexError. */
  function FormatAll(entries: seq<seq<string>>, sshUser: string): (r: Result<seq<string>, string>)
    ensures r.Ok? <==> forall k :: 0 <= k < |entries| ==> |entries[k]| >= 4
    ensures r.Err? ==> r.error == IndexErrorText
    ensures r.Ok? ==> |r.value| == |entries|
    ensures r.Ok? ==> forall k :: 0 <= k < |entries| ==> r.value[k] == "  " + FormatSsh(entries[k], sshUser).value
  {
    if |entries| == 0 then Ok([])
    else
      match FormatSsh(entries[0], sshUser)
      case Err(e) => Err(e)
      case Ok(line) =>
        match FormatAll(entries[1..], sshUser)
        case Err(e) =>
          assert forall k :: 1 <= k < |entries| ==> entries[1..][k - 1] == entries[k];
          Err(e)
        case Ok(rest) =>
          assert forall k :: 1 <= k < |entries| ==> entries[1..][k - 1] == entries[k];
          Ok(["  " + line] + rest)
  }

  /** The SSH access lines after a claim of an existing cluster: every login
      entry, else a fallback on the control host, else a notice. */
  function SshAccessLines(loginInfo: seq<seq<string>>, hostname: string, sshUser: string): (r: Result<seq<string>, string>)
    ensures |loginInfo| > 0 ==> r == FormatAll(loginInfo, sshUser)
    ensures |loginInfo| == 0 && hostname != "" ==> r == Ok(["  ssh " + sshUser + "@" + hostname])
    ensures |loginInfo| == 0 && hostname == "" ==> r == Ok(["  Could not determine SSH access details."])
  {
    if |loginInfo| > 0 then FormatAll(loginInfo, sshUser)
    else if hostname != "" then Ok(["  ssh " + sshUser + "@" + hostname])
    else Ok(["  Could not determine SSH access details."])
  }

  /** An entry the control-node loop raises IndexError on: one without a
      client id, or a control entry without a host and port. */
  predicate BadControlEntry(e: seq<string>) {
    |e| == 0 || (e[0] == "control" && |e| < 4)
  }

  /** The entries whose client id is "control", in order. */
  function ControlEntries(entries: seq<seq<string>>): (cs: seq<seq<string>>)
    requires forall k :: 0 <= k < |entries| ==> |entries[k]| > 0
    ensures |cs| <= |entries|
    ensures forall c :: c in cs ==> c in entries && c[0] == "control"
    ensures forall k :: 0 <= k < |entries| && entries[k][0] == "control" ==> entries[k] in cs
  {
    if |entries| == 0 then []
    else
      assert forall k :: 1 <= k < |entries| ==> entries[1..][k - 1] == entries[k];
      (if entries[0][0] == "control" then [entries[0]] else []) + ControlEntries(entries[1..])
  }

  /** The control-node lines after a new cluster is provisioned: only the
      entries whose client id is "control"; an empty entry or a short control
      entry raises IndexError. */
  function ControlLines(entries: seq<seq<string>>, sshUser: string): (r: Result<seq<string>, string>)
    ensures r.Err? ==> r.error == IndexErrorText
    ensures r.Ok? ==> |r.value| <= |entries|
    ensures (forall k :: 0 <= k < |entries| ==> |entries[k]| >= 4) ==> r.Ok?
  {
    if |entries| == 0 then Ok([])
    else if |entries[0]| == 0 then Err(IndexErrorText)
    else
      var rest := ControlLines(entries[1..], sshUser);
      assert forall k :: 1 <= k < |entries| ==> entries[1..][k - 1] == entries[k];
      if entries[0][0] != "control" then rest
      else
        match FormatSsh(entries[0], sshUser)
        case Err(e) => Err(e)
        case Ok(line) => if rest.Err? then rest else Ok(["  " + line] + rest.value)
  }

  /** The control-node lines raise exactly when some entry is bad, and
      otherwise are the formatted control entries, in order. */
  lemma {:induction false} ControlLinesFormatsControls(entries: seq<seq<string>>, sshUser: string)
    ensures ControlLines(entries, sshUser).Err? <==> exists k :: 0 <= k < |entries| && BadControlEntry(entries[k])
    ensures ControlLines(entries, sshUser).Ok? ==>
              ControlLines(entries, sshUser) == FormatAll(ControlEntries(entries), sshUser)
  {
    if |entries| > 0 {
      assert forall k :: 1 <= k < |entries| ==> entries[1..][k - 1] == entries[k];
      if |entries[0]| > 0 {
        ControlLinesFormatsControls(entries[1..], sshUser);
        var rest := ControlLines(entries[1..], sshUser);
        if rest.Ok? {
          var cs := ControlEntries(entries[1..]);
          if entries[0][0] != "control" {
            assert ControlEntries(entries) == [] + cs;
            assert [] + cs == cs;
          } else if |entries[0]| >= 4 {
            assert ControlEntries(entries) == [entries[0]] + cs;
            assert ([entries[0]] + cs)[1..] == cs;
            assert FormatAll([entries[0]] + cs, sshUser)
                   == Ok(["  " + FormatSsh(entries[0], sshUser).value] + FormatAll(cs, sshUser).value);
          }
        }
      }
    }
  }

  /** What `_remove_user_ssh_key_from_node` does: whether it reports success,
      and the pattern it uploads (None when it stops before any remote call). */
  datatype KeyRemoval = KeyRemoval(removed: bool, pattern: Option<string>)

  /** `_remove_user_ssh_key_from_node`. `exit` is the exit code of the remote
      filter command, or the exception the upload or the command raised. */
  function RemoveUserSshKey(key: string, exit: Result<int, string>): (r: KeyRemoval)
    ensures Strip(key) == "" <==> r.pattern.None?
    ensures Strip(key) == "" ==> !r.removed
    ensures Strip(key) != "" ==> r.pattern == Some(Strip(key) + "\n") && (r.removed <==> exit == Ok(0))
  {
    var cleaned := Strip(key);
    if cleaned == "" then KeyRemoval(false, None)
    else KeyRemoval(exit == Ok(0), Some(cleaned + "\n"))
  }

  // ---------------------------------------------------------------------
  // Cluster records

  /** The cluster statuses the commands read or write; the others are kept
      by name. */
  datatype Status = UnclaimedReady | Claimed | Terminating | UserProvisioning | Error | OtherStatus(name: string)

  /** The fields of a cluster record that the commands read or write. An
      empty `hostname` is a missing one; times are seconds. */
  datatype Cluster = Cluster(
    slice: string,
    aggregate: string,
    status: Status,
    claimedBy: Option<string>,
    hostname: string,
    loginInfo: seq<seq<string>>,
    keyInstalled: bool,
    expiresAt: int,
    evalOverride: bool,
    lastError: Option<string>)

  /** A cluster currently claimed by `u`. */
  predicate HeldBy(c: Cluster, u: string) {
    c.status == Claimed && c.claimedBy == Some(u)
  }

  /** `count_user_claimed_clusters`: the clusters currently claimed by `u`. */
  function ClaimedCount(cs: seq<Cluster>, u: string): nat {
    if |cs| == 0 then 0
    else ClaimedCount(cs[..|cs| - 1], u) + (if HeldBy(cs[|cs| - 1], u) then 1 else 0)
  }

  /** Appending a record adds what it contributes to a user's claimed count. */
  lemma ClaimedCountAppend(cs: seq<Cluster>, c: Cluster, u: string)
    ensures ClaimedCount(cs + [c], u) == ClaimedCount(cs, u) + (if HeldBy(c, u) then 1 else 0)
  {
    assert (cs + [c])[..|cs|] == cs;
  }

  /** Replacing one record changes a user's count by what that record contributed. */
  lemma {:induction false} ClaimedCountUpdate(cs: seq<Cluster>, k: nat, c: Cluster, u: string)
    requires k < |cs|
    ensures ClaimedCount(cs[k := c], u) + (if HeldBy(cs[k], u) then 1 else 0)
            == ClaimedCount(cs, u) + (if HeldBy(c, u) then 1 else 0)
  {
    var n := |cs| - 1;
    if k == n {
      assert cs[k := c][..n] == cs[..n];
    } else {
      assert cs[k := c][..n] == cs[..n][k := c];
      ClaimedCountUpdate(cs[..n], k, c, u);
    }
  }

  /** The position of the first record with status UNCLAIMED_READY, or `|cs|`. */
  function FirstReady(cs: seq<Cluster>): (k: nat)
    ensures k <= |cs|
    ensures forall i :: 0 <= i < k ==> cs[i].status != UnclaimedReady
    ensures k < |cs| ==> cs[k].status == UnclaimedReady
  {
    if |cs| == 0 || cs[0].status == UnclaimedReady then 0 else 1 + FirstReady(cs[1..])
  }

  /** The position of the record named `slice`, or `|cs|`. */
  function FindSlice(cs: seq<Cluster>, slice: string): (k: nat)
    ensures k <= |cs|
    ensures forall i :: 0 <= i < k ==> cs[i].slice != slice
    ensures k < |cs| ==> cs[k].slice == slice
  {
    if |cs| == 0 || cs[0].slice == slice then 0 else 1 + FindSlice(cs[1..], slice)
  }

  /** What a command prints or raises: success lines, an error line followed
      by a plain return, a silent return, or an exception that escapes. */
  datatype Outcome = Success(lines: seq<string>) | Refused(message: string) | Stopped | Raised(exception: string)

  /** Installing the user's key on every login node. */
  datatype KeyInstall = Installed | AddFailed | Aborted | IndexRaised

  /** The key-installation loop over the login entries: an entry without a
      host raises IndexError, a missing SSH prerequisite aborts, a failed add
      stops; `addKey` is the result of adding the key on a host. */
  function KeyInstallOf(entries: seq<seq<string>>, sshReady: bool, addKey: string -> bool): (r: KeyInstall)
  {
    if |entries| == 0 then Installed
    else if |entries[0]| < 3 then IndexRaised
    else if !sshReady then Aborted
    else if !addKey(entries[0][2]) then AddFailed
    else KeyInstallOf(entries[1..], sshReady, addKey)
  }

  /** Installation succeeds exactly when every entry has a host on which the
      add succeeds (and, when there is any entry, the SSH prerequisites hold). */
  lemma {:induction false} KeyInstallOfIff(entries: seq<seq<string>>, sshReady: bool, addKey: string -> bool)
    ensures KeyInstallOf(entries, sshReady, addKey) == Installed <==>
            ((|entries| == 0 || sshReady)
             && forall k :: 0 <= k < |entries| ==> |entries[k]| >= 3 && addKey(entries[k][2]))
  {
    if |entries| > 0 {
      KeyInstallOfIff(entries[1..], sshReady, addKey);
      assert forall k :: 1 <= k < |entries| ==> entries[1..][k - 1] == entries[k];
    }
  }

  /** The key-installation `for` loop. */
  method InstallKeys(entries: seq<seq<string>>, sshReady: bool, addKey: string -> bool) returns (r: KeyInstall)
    ensures r == KeyInstallOf(entries, sshReady, addKey)
  {
    var i := 0;
    while i < |entries|
      invariant 0 <= i <= |entries|
      invariant KeyInstallOf(entries, sshReady, addKey) == KeyInstallOf(entries[i..], sshReady, addKey)
    {
      assert entries[i..][1..] == entries[i + 1..];
      if |entries[i]| < 3 {
        return IndexRaised;
      }
      if !sshReady {
        return Aborted;
      }
      if !addKey(entries[i][2]) {
        return AddFailed;
      }
      i := i + 1;
    }
    r := Installed;
  }

  /** The record of an existing cluster after a successful claim. */
  function ClaimRecord(c: Cluster, email: string, evalOverride: bool, expiresAt: int): (r: Cluster)
    ensures HeldBy(r, email) && r.keyInstalled
    ensures r.slice == c.slice && r.hostname == c.hostname && r.loginInfo == c.loginInfo
  {
    c.(status := Claimed, claimedBy := Some(email), keyInstalled := true, expiresAt := expiresAt,
       evalOverride := evalOverride)
  }

  /** How the provisioning of a new cluster ended, after its record was
      created: provisioned with these details, stopped by a failed key add,
      failed on SSH (`cleanup`: the experiment has an aggregate), or failed
      with another exception. */
  datatype ProvisionResult =
    | Provisioned(aggregate: string, hostname: string, loginInfo: seq<seq<string>>, expiresAt: int)
    | KeyAddFailed
    | SshFailed(error: string, cleanup: bool)
    | Failed(error: string, cleanup: bool)

  /** The record created before provisioning: pre-claimed, still provisioning. */
  function PendingRecord(slice: string, email: string, evalOverride: bool): Cluster {
    Cluster(slice, "<PENDING>", UserProvisioning, Some(email), "", [], false, 0, evalOverride, None)
  }

  /** The error path of provisioning: status ERROR with the message, then
      TERMINATING when there is an experiment to clean up. */
  function FailedRecord(c: Cluster, error: string, cleanup: bool): (r: Cluster)
    ensures r.status == (if cleanup then Terminating else Error)
    ensures r.lastError == Some(error) && r.claimedBy == c.claimedBy && r.slice == c.slice
  {
    c.(status := if cleanup then Terminating else Error, lastError := Some(error))
  }

  /** The success path of provisioning: the record is claimed, with the
      node details filled in and the user's key installed. */
  function ClaimedRecord(c: Cluster, aggregate: string, hostname: string, loginInfo: seq<seq<string>>, expiresAt: int)
    : (r: Cluster)
    ensures r.status == Claimed && r.keyInstalled && r.claimedBy == c.claimedBy && r.slice == c.slice
    ensures r.aggregate == aggregate && r.hostname == hostname && r.loginInfo == loginInfo && r.expiresAt == expiresAt
  {
    c.(status := Claimed, aggregate := aggregate, hostname := hostname,
       loginInfo := loginInfo, keyInstalled := true, expiresAt := expiresAt)
  }

  /** The record a provisioning leaves and what it prints. */
  datatype Ending = Ending(record: Cluster, outcome: Outcome)

  /** The new record and what is printed once provisioning of `slice` for
      `email` has ended. */
  function AfterProvision(slice: string, email: string, evalOverride: bool, result: ProvisionResult, sshUser: string)
    : (r: Ending)
    ensures r.record.slice == slice && r.record.claimedBy == Some(email)
    ensures r.outcome.Success? <==> r.record.status == Claimed
    ensures r.record.status == Claimed <==> result.Provisioned? && ControlLines(result.loginInfo, sshUser).Ok?
    ensures result.KeyAddFailed? ==> r == Ending(PendingRecord(slice, email, evalOverride), Stopped)
    ensures result.SshFailed? ==>
              r.record == FailedRecord(PendingRecord(slice, email, evalOverride), InjectionFailed(result.error),
                                  result.cleanup)
    ensures result.Failed? ==> r.record == FailedRecord(PendingRecord(slice, email, evalOverride), result.error, result.cleanup)
  {
    var pending := PendingRecord(slice, email, evalOverride);
    match result
    case Provisioned(aggregate, hostname, loginInfo, expiresAt) =>
      AfterProvisioned(ClaimedRecord(pending, aggregate, hostname, loginInfo, expiresAt), email, sshUser)
    case KeyAddFailed => Ending(pending, Stopped)
    case SshFailed(error, cleanup) =>
      Ending(FailedRecord(pending, InjectionFailed(error), cleanup),
       Refused(NewClusterSshError(slice, error)))
    case Failed(error, cleanup) =>
      Ending(FailedRecord(pending, error, cleanup), Refused(UnexpectedError(slice, error)))
  }

  /** The end of a provisioning that produced a cluster: claimed when its
      control-node command can be formatted, failed otherwise. */
  function AfterProvisioned(claimed: Cluster, email: string, sshUser: string): (r: Ending)
    ensures r.record.slice == claimed.slice && r.record.claimedBy == claimed.claimedBy
    ensures r.outcome.Success? <==> ControlLines(claimed.loginInfo, sshUser).Ok?
    ensures r.outcome.Success? ==> r.record == claimed
    ensures !r.outcome.Success? ==> r.record.status != Claimed
  {
    var lines := ControlLines(claimed.loginInfo, sshUser);
    if lines.Ok? then
      Ending(claimed, Success(ProvisionedLines(claimed.slice, email, lines.value)))
    else
      Ending(FailedRecord(claimed, lines.error, claimed.aggregate != ""), Refused(UnexpectedError(claimed.slice, lines.error)))
  }

  /** The report of a successful provisioning: who holds the new cluster, then its control-node command. */
  function ProvisionedLines(slice: string, email: string, control: seq<string>): seq<string> {
    ["New cluster '" + slice + "' successfully provisioned and claimed by '" + email + "'.",
     "SSH Access (Control Node):"] + control
  }

  /** The error recorded when the user's key could not be injected. */
  function InjectionFailed(error: string): string {
    "SSH key injection failed: " + error
  }

  /** The message of a failed key injection on a new cluster. */
  function NewClusterSshError(slice: string, error: string): string {
    "ERROR: SSH operation failed for new cluster " + slice + ": " + error
  }

  /** The message of an unexpected provisioning failure. */
  function UnexpectedError(slice: string, error: string): string {
    "ERROR: An unexpected error occurred during user-triggered provisioning for " + slice + ": " + error
  }

  /** Slice names are unique, every user was registered with a valid email
      and key, and no user holds more claimed clusters than the per-user
      limit allows. */
  ghost predicate DbInvariant(users: map<string, string>, cs: seq<Cluster>, maxPerUser: int) {
    && (forall i, j :: 0 <= i < j < |cs| ==> cs[i].slice != cs[j].slice)
    && (forall u :: u in users ==> IsValidEmail(u) && ValidSshKey(users[u]))
    && (forall u :: ClaimedCount(cs, u) <= (if maxPerUser < 0 then 0 else maxPerUser))
  }

  /** Adding a record with a fresh name, claimed if at all by a user below
      the limit, keeps the invariant. */
  lemma AppendKeepsInvariant(users: map<string, string>, cs: seq<Cluster>, c: Cluster, email: string, maxPerUser: int)
    requires DbInvariant(users, cs, maxPerUser)
    requires forall i :: 0 <= i < |cs| ==> cs[i].slice != c.slice
    requires c.status == Claimed ==> c.claimedBy == Some(email) && ClaimedCount(cs, email) < maxPerUser
    ensures DbInvariant(users, cs + [c], maxPerUser)
  {
    forall u ensures ClaimedCount(cs + [c], u) <= (if maxPerUser < 0 then 0 else maxPerUser) {
      ClaimedCountAppend(cs, c, u);
    }
    var next := cs + [c];
    assert forall i :: 0 <= i < |cs| ==> next[i] == cs[i];
  }

  /** Replacing a record by one with the same name that is released, or
      claimed by its holder or by a user below the limit, keeps the invariant. */
  lemma UpdateKeepsInvariant(users: map<string, string>, cs: seq<Cluster>, k: nat, c: Cluster, email: string,
                             maxPerUser: int)
    requires DbInvariant(users, cs, maxPerUser)
    requires k < |cs| && c.slice == cs[k].slice
    requires c.status == Claimed ==> c.claimedBy == Some(email) && (HeldBy(cs[k], email) || ClaimedCount(cs, email) < maxPerUser)
    ensures DbInvariant(users, cs[k := c], maxPerUser)
  {
    var next := cs[k := c];
    forall u ensures ClaimedCount(next, u) <= (if maxPerUser < 0 then 0 else maxPerUser) {
      ClaimedCountUpdate(cs, k, c, u);
    }
  }

  const InvalidEmail: string := "ERROR: Invalid email address format."
  const InvalidKey: string :=
    "ERROR: Invalid or incomplete SSH public key format. Ensure it includes the key type (e.g., 'ssh-rsa AAA...')."
  /** The exception the as-written claim of an existing cluster raises. */
  const UnboundExperimentInfo: string :=
    "UnboundLocalError: cannot access local variable 'experiment_info' where it is not associated with a value"

  /** The provisioner's users (email to public key) and cluster records, with
      the limits and the SSH user from the settings. */
  class ProvisionerDb {
    const maxPerUser: int
    const maxTotal: int
    const claimHours: int
    const sshUser: string
    var users: map<string, string>
    var clusters: seq<Cluster>

    /** Slice names are unique, every user was registered with a valid email
        and key, and no user holds more claimed clusters than the per-user
        limit allows. */
    ghost predicate Valid()
      reads this
    {
      DbInvariant(users, clusters, maxPerUser)
    }

    constructor(maxPerUser: int, maxTotal: int, claimHours: int, sshUser: string)
      ensures this.maxPerUser == maxPerUser && this.maxTotal == maxTotal
      ensures this.claimHours == claimHours && this.sshUser == sshUser
      ensures users == map[] && clusters == []
      ensures Valid()
    {
      this.maxPerUser := maxPerUser;
      this.maxTotal := maxTotal;
      this.claimHours := claimHours;
      this.sshUser := sshUser;
      users := map[];
      clusters := [];
    }

    /** `register`: the email check, then the key check, then `add_user`,
        which adds a new user and refuses a known one. */
    method Register(email: string, sshKey: string) returns (r: Outcome)
      requires Valid()
      modifies this
      ensures Valid() && clusters == old(clusters)
      ensures r.Success? <==> IsValidEmail(email) && ValidSshKey(sshKey) && email !in old(users)
      ensures users == if r.Success? then old(users)[email := sshKey] else old(users)
      ensures !IsValidEmail(email) ==> r == Refused(InvalidEmail)
      ensures IsValidEmail(email) && !ValidSshKey(sshKey) ==> r == Refused(InvalidKey)
    {
      if !IsValidEmail(email) {
        return Refused(InvalidEmail);
      }
      if !ValidSshKey(sshKey) {
        return Refused(InvalidKey);
      }
      if email in users {
        return Refused("User with email '" + email + "' might already be registered");
      }
      users := users[email := sshKey];
      r := Success(["User with email '" + email + "' registered successfully."]);
    }

    /** The guards of `claim` in order, as the message each prints; None when
        all pass. */
    function ClaimRefusal(email: string): (r: Option<string>)
      reads this
      ensures r.None? <==> IsValidEmail(email) && email in users && ClaimedCount(clusters, email) < maxPerUser
      ensures !IsValidEmail(email) ==> r == Some(InvalidEmail)
    {
      if !IsValidEmail(email) then Some(InvalidEmail)
      else if email !in users then
        Some("ERROR: User with email '" + email + "' not registered. Please register first.")
      else if ClaimedCount(clusters, email) >= maxPerUser then
        Some("ERROR: User '" + email + "' has already claimed the maximum of " + IntToString(maxPerUser) + " clusters.")
      else None
    }

    /** `claim`, with the existing-cluster branch reading the cluster's own
        aggregate. `now` is the clock, `renewed` whether the experiment was
        extended, `newSlice` the generated name of a new cluster and
        `provision` how provisioning it ends. */
    method Claim(email: string, evalOverride: bool, now: int, sshReady: bool, addKey: string -> bool,
                 renewed: bool, newSlice: string, provision: ProvisionResult) returns (r: Outcome)
      requires Valid()
      requires forall i :: 0 <= i < |clusters| ==> clusters[i].slice != newSlice
      modifies this
      ensures Valid() && users == old(users)
      ensures old(ClaimRefusal(email)).Some? ==> r == Refused(old(ClaimRefusal(email)).value) && clusters == old(clusters)
      ensures old(ClaimRefusal(email)).None? && FirstReady(old(clusters)) < |old(clusters)| ==>
                ReadyClaimed(old(clusters), FirstReady(old(clusters)), email, evalOverride, now, sshReady, addKey, renewed, r)
      ensures old(ClaimRefusal(email)).None? && FirstReady(old(clusters)) == |old(clusters)| ==>
                NewProvisioned(old(clusters), email, evalOverride, newSlice, provision, r)
    {
      var refusal := ClaimRefusal(email);
      if refusal.Some? {
        return Refused(refusal.value);
      }
      var k := FirstReady(clusters);
      if k < |clusters| {
        r := ClaimReady(k, email, evalOverride, now, sshReady, addKey, renewed);
      } else {
        r := ProvisionNew(email, evalOverride, newSlice, provision);
      }
    }

    /** `claim` as written: the existing-cluster branch reads `experiment_info`,
        a local that only the new-cluster branch assigns, so it raises before
        any change whenever a ready cluster with a host exists. */
    method ClaimAsWritten(email: string, evalOverride: bool, newSlice: string, provision: ProvisionResult)
      returns (r: Outcome)
      requires Valid()
      requires forall i :: 0 <= i < |clusters| ==> clusters[i].slice != newSlice
      modifies this
      ensures Valid() && users == old(users)
      ensures old(ClaimRefusal(email)).Some? ==> r == Refused(old(ClaimRefusal(email)).value) && clusters == old(clusters)
      ensures old(ClaimRefusal(email)).None? && FirstReady(old(clusters)) < |old(clusters)| ==>
                clusters == old(clusters) && !r.Success?
      ensures (old(ClaimRefusal(email)).None? && FirstReady(old(clusters)) < |old(clusters)|
               && old(clusters)[FirstReady(old(clusters))].hostname != "") ==> r == Raised(UnboundExperimentInfo)
      ensures old(ClaimRefusal(email)).None? && FirstReady(old(clusters)) == |old(clusters)| ==>
                NewProvisioned(old(clusters), email, evalOverride, newSlice, provision, r)
    {
      var refusal := ClaimRefusal(email);
      if refusal.Some? {
        return Refused(refusal.value);
      }
      var k := FirstReady(clusters);
      if k < |clusters| {
        var c := clusters[k];
        if c.hostname == "" {
          return Refused("ERROR: Cluster " + c.slice + " has no control_node_hostname. Cannot proceed with claim.");
        }
        return Raised(UnboundExperimentInfo);
      }
      r := ProvisionNew(email, evalOverride, newSlice, provision);
    }

    /** The new state and outcome of claiming the ready cluster at `k`: no
        host refuses, a failed key installation changes nothing, otherwise the
        record becomes claimed by `email` and the access lines are printed. */
    ghost predicate ReadyClaimed(before: seq<Cluster>, k: nat, email: string, evalOverride: bool, now: int,
                                 sshReady: bool, addKey: string -> bool, renewed: bool, r: Outcome)
      requires k < |before|
      reads this
    {
      var c := before[k];
      var installed := KeyInstallOf(c.loginInfo, sshReady, addKey);
      if c.hostname == "" then
        r == Refused("ERROR: Cluster " + c.slice + " has no control_node_hostname. Cannot proceed with claim.")
        && clusters == before
      else if installed != Installed then
        r == (if installed == IndexRaised then Raised("IndexError: " + IndexErrorText) else Stopped)
        && clusters == before
      else
        && clusters == before[k := ClaimRecord(c, email, evalOverride,
                                               if renewed then now + claimHours * 3600 else c.expiresAt)]
        && r == match SshAccessLines(c.loginInfo, c.hostname, sshUser)
                case Ok(lines) =>
                  Success(["Cluster '" + c.slice + "' successfully claimed by '" + email + "'.",
                           "SSH Access (Control Node):"] + lines)
                case Err(e) => Raised("IndexError: " + e)
    }

    /** The new state and outcome of provisioning a new cluster: refused at
        the total limit, otherwise one new record, as `AfterProvision` leaves it. */
    ghost predicate NewProvisioned(before: seq<Cluster>, email: string, evalOverride: bool, newSlice: string,
                                   provision: ProvisionResult, r: Outcome)
      reads this
    {
      if |before| >= maxTotal then
        r == Refused("ERROR: Maximum total clusters (" + IntToString(maxTotal) + ") reached. Cannot provision for user '"
                     + email + "' at this time.")
        && clusters == before
      else
        var after := AfterProvision(newSlice, email, evalOverride, provision, sshUser);
        clusters == before + [after.record] && r == after.outcome
    }

    /** The existing-cluster branch of `claim`. */
    method ClaimReady(k: nat, email: string, evalOverride: bool, now: int, sshReady: bool, addKey: string -> bool,
                      renewed: bool) returns (r: Outcome)
      requires Valid()
      requires k < |clusters| && clusters[k].status == UnclaimedReady
      requires ClaimedCount(clusters, email) < maxPerUser
      modifies this
      ensures Valid() && users == old(users)
      ensures ReadyClaimed(old(clusters), k, email, evalOverride, now, sshReady, addKey, renewed, r)
    {
      var c := clusters[k];
      if c.hostname == "" {
        return Refused("ERROR: Cluster " + c.slice + " has no control_node_hostname. Cannot proceed with claim.");
      }
      var installed := InstallKeys(c.loginInfo, sshReady, addKey);
      if installed == IndexRaised {
        return Raised("IndexError: " + IndexErrorText);
      }
      if installed != Installed {
        return Stopped;
      }
      var expires := if renewed then now + claimHours * 3600 else c.expiresAt;
      var claimed := ClaimRecord(c, email, evalOverride, expires);
      UpdateKeepsInvariant(users, clusters, k, claimed, email, maxPerUser);
      clusters := clusters[k := claimed];
      var lines := SshAccessLines(c.loginInfo, c.hostname, sshUser);
      if lines.Ok? {
        r := Success(["Cluster '" + c.slice + "' successfully claimed by '" + email + "'.",
                      "SSH Access (Control Node):"] + lines.value);
      } else {
        r := Raised("IndexError: " + lines.error);
      }
    }

    /** The new-cluster branch of `claim`: refused at the total limit,
        otherwise the record is created pre-claimed and then updated as
        provisioning ends. */
    method ProvisionNew(email: string, evalOverride: bool, newSlice: string, provision: ProvisionResult)
      returns (r: Outcome)
      requires Valid()
      requires ClaimedCount(clusters, email) < maxPerUser
      requires forall i :: 0 <= i < |clusters| ==> clusters[i].slice != newSlice
      modifies this
      ensures Valid() && users == old(users)
      ensures NewProvisioned(old(clusters), email, evalOverride, newSlice, provision, r)
    {
      if |clusters| >= maxTotal {
        return Refused("ERROR: Maximum total clusters (" + IntToString(maxTotal) + ") reached. Cannot provision for user '"
                       + email + "' at this time.");
      }
      var after := AfterProvision(newSlice, email, evalOverride, provision, sshUser);
      AppendKeepsInvariant(users, clusters, after.record, email, maxPerUser);
      clusters := clusters + [after.record];
      r := after.outcome;
    }

    /** `relinquish`: the email, user, cluster and ownership guards, then the
        key removal on the control node; on success the cluster is marked
        for termination and released. `removeExit` is the remote command's
        exit code or exception. */
    method Relinquish(email: string, experiment: string, sshReady: bool, removeExit: Result<int, string>)
      returns (r: Outcome)
      requires Valid()
      modifies this
      ensures Valid() && users == old(users)
      ensures r.Success? <==>
                && IsValidEmail(email) && email in old(users)
                && FindSlice(old(clusters), experiment) < |old(clusters)|
                && HeldBy(old(clusters)[FindSlice(old(clusters), experiment)], email)
                && sshReady && removeExit == Ok(0)
      ensures !r.Success? ==> clusters == old(clusters)
      ensures r.Success? ==>
                var k := FindSlice(old(clusters), experiment);
                clusters == old(clusters)[k := old(clusters)[k].(status := Terminating, claimedBy := None,
                                                                 keyInstalled := false)]
      ensures !IsValidEmail(email) ==> r == Refused(InvalidEmail)
      ensures IsValidEmail(email) && email in old(users) && FindSlice(old(clusters), experiment) == |old(clusters)| ==>
                r == Refused("ERROR: Cluster '" + experiment + "' not found.")
    {
      if !IsValidEmail(email) {
        return Refused(InvalidEmail);
      }
      if email !in users {
        return Refused("ERROR: User with email '" + email + "' not registered.");
      }
      var k := FindSlice(clusters, experiment);
      if k == |clusters| {
        return Refused("ERROR: Cluster '" + experiment + "' not found.");
      }
      var c := clusters[k];
      if c.claimedBy != Some(email) || c.status != Claimed {
        return Refused("ERROR: Cluster '" + experiment + "' is not currently claimed by user '" + email + "'.");
      }
      r := ReleaseClaimed(k, email, experiment, sshReady, removeExit);
    }

    /** The second half of `relinquish`, for a cluster `email` holds: remove
        the user's key from the control node and, when that succeeds, mark the
        cluster for termination and release it. */
    method ReleaseClaimed(k: nat, email: string, experiment: string, sshReady: bool, removeExit: Result<int, string>)
      returns (r: Outcome)
      requires Valid() && email in users && k < |clusters| && HeldBy(clusters[k], email)
      modifies this
      ensures Valid() && users == old(users)
      ensures r.Success? <==> sshReady && removeExit == Ok(0)
      ensures !r.Success? ==> clusters == old(clusters)
      ensures r.Success? ==>
                clusters == old(clusters)[k := old(clusters)[k].(status := Terminating, claimedBy := None,
                                                                 keyInstalled := false)]
    {
      ValidKeyNotBlank(users[email]);
      var removal := RemoveUserSshKey(users[email], removeExit);
      if !sshReady || !removal.removed {
        var reason := if sshReady then "Failed to remove user SSH key from relinquished cluster." else "";
        return Refused("ERROR: SSH operation failed for relinquished cluster " + experiment + ": " + reason);
      }
      MarkTerminating(k, email);
      r := Success(["Cluster '" + experiment + "' relinquished by '" + email + "' and marked for termination."]);
    }

    /** The record update of `relinquish`: the cluster is marked for
        termination, its user disassociated and its key marked as removed. */
    method MarkTerminating(k: nat, email: string)
      requires Valid() && k < |clusters| && HeldBy(clusters[k], email)
      modifies this
      ensures Valid() && users == old(users)
      ensures clusters == old(clusters)[k := old(clusters)[k].(status := Terminating, claimedBy := None,
                                                               keyInstalled := false)]
    {
      var released := clusters[k].(status := Terminating, claimedBy := None, keyInstalled := false);
      UpdateKeepsInvariant(users, clusters, k, released, email, maxPerUser);
      clusters := clusters[k := released];
    }
  }
}
