/**
 * The invocation builder of docker.go: the options a container is run with
 * and the ordered argument vector handed to the `docker` binary.
 */
module Docker {

  /**
   * The run options of one invocation. docker.go declares only Image,
   * EntryPoint, AsUser and Cmd; main.go also fills Name, Stdin, Volumes and
   * WorkDir, so this is the union of both. An empty string stands for an
   * unset EntryPoint or WorkDir, and an empty sequence for a nil Cmd.
   */
  datatype RunOptions = RunOptions(
    name: string,
    image: string,
    stdin: bool,
    asUser: bool,
    entryPoint: string,
    volumes: map<string, string>,
    workDir: string,
    cmd: seq<string>)

  // ---------------------------------------------------------------------
  // Decimal formatting of a non-negative integer, as fmt's %d verb does it
  // ---------------------------------------------------------------------

  predicate IsDigit(c: char) {
    '0' <= c <= '9'
  }

  predicate AllDigits(s: string) {
    forall i :: 0 <= i < |s| ==> IsDigit(s[i])
  }

  function DigitChar(d: nat): (c: char)
    requires d < 10
    ensures IsDigit(c) && c as int - '0' as int == d
  {
    "0123456789"[d]
  }

  function DigitValue(c: char): nat
    requires IsDigit(c)
  {
    c as int - '0' as int
  }

  /** The shortest decimal numeral of n: digits only, no leading zero. */
  function Dec(n: nat): (s: string)
    ensures |s| >= 1 && AllDigits(s)
    ensures |s| > 1 ==> s[0] != '0'
    ensures n < 10 <==> |s| == 1
  {
    if n < 10 then [DigitChar(n)] else Dec(n / 10) + [DigitChar(n % 10)]
  }

  /** Reads a string of decimal digits back as a number (the inverse of Dec). */
  function ParseDec(s: string): nat
    requires AllDigits(s)
  {
    if s == [] then 0 else ParseDec(s[..|s| - 1]) * 10 + DigitValue(s[|s| - 1])
  }

  lemma {:induction false} ParseDecOfDec(n: nat)
    ensures ParseDec(Dec(n)) == n
  {
    if n >= 10 {
      var s := Dec(n);
      assert s[..|s| - 1] == Dec(n / 10);
      ParseDecOfDec(n / 10);
    }
  }

  lemma DecInjective(a: nat, b: nat)
    requires Dec(a) == Dec(b)
    ensures a == b
  {
    ParseDecOfDec(a);
    ParseDecOfDec(b);
  }

  /** The `-u` value, Sprintf("%d:%d", uid, gid). */
  function UserSpec(uid: nat, gid: nat): string {
    Dec(uid) + ":" + Dec(gid)
  }

  /** The colon written between the two numbers is the only one in the value. */
  lemma UserSpecColon(uid: nat, gid: nat)
    ensures var s := UserSpec(uid, gid);
      s[|Dec(uid)|] == ':' &&
      forall i :: 0 <= i < |s| && i != |Dec(uid)| ==> IsDigit(s[i])
  {
  }

  /** Distinct (uid, gid) pairs never format to the same `-u` value. */
  lemma UserSpecInjective(u1: nat, g1: nat, u2: nat, g2: nat)
    requires UserSpec(u1, g1) == UserSpec(u2, g2)
    ensures u1 == u2 && g1 == g2
  {
    var s := UserSpec(u1, g1);
    UserSpecColon(u1, g1);
    UserSpecColon(u2, g2);
    assert |Dec(u1)| == |Dec(u2)|;
    assert Dec(u1) == s[..|Dec(u1)|] == Dec(u2);
    assert Dec(g1) == s[|Dec(u1)| + 1..] == Dec(g2);
    DecInjective(u1, u2);
    DecInjective(g1, g2);
  }

  // ---------------------------------------------------------------------
  // The docker argument vector
  // ---------------------------------------------------------------------

  /** The user-mapping flags: read-only passwd and group mounts, then `-u uid:gid`. */
  function UserFlags(uid: nat, gid: nat): seq<string> {
    ["-v", "/etc/passwd:/etc/passwd:ro", "-v", "/etc/group:/etc/group:ro", "-u", UserSpec(uid, gid)]
  }

  function EntryPointFlags(o: RunOptions): seq<string> {
    if o.entryPoint != "" then ["--entrypoint", o.entryPoint] else []
  }

  /** Everything before the image: the subcommand, `--rm`, user mapping and entrypoint. */
  function Flags(o: RunOptions, uid: nat, gid: nat): seq<string> {
    ["run", "--rm"] + (if o.asUser then UserFlags(uid, gid) else []) + EntryPointFlags(o)
  }

  /** The argument vector docker.go builds: the flags, the image, then the command. */
  function ExpectedArgs(o: RunOptions, uid: nat, gid: nat): seq<string> {
    Flags(o, uid, gid) + [o.image] + o.cmd
  }

  /**
   * RunOptions.args: grows the argument vector by conditional appends.
   * The effective uid and gid are parameters rather than system calls.
   */
  method Args(o: RunOptions, uid: nat, gid: nat) returns (opts: seq<string>)
    ensures opts == ExpectedArgs(o, uid, gid)
    ensures opts[..2] == ["run", "--rm"]
    ensures opts[|Flags(o, uid, gid)|] == o.image
    ensures opts[|Flags(o, uid, gid)| + 1..] == o.cmd
  {
    opts := ["run", "--rm"];
    if o.asUser {
      opts := opts + ["-v", "/etc/passwd:/etc/passwd:ro", "-v", "/etc/group:/etc/group:ro", "-u", UserSpec(uid, gid)];
    }
    if o.entryPoint != "" {
      opts := opts + ["--entrypoint", o.entryPoint];
    }
    opts := opts + [o.image];
    if |o.cmd| > 0 {
      opts := opts + o.cmd;
    }
    ArgsLayout(o, uid, gid);
  }

  /** The exact length of the vector, and what stands at each position. */
  lemma ArgsLayout(o: RunOptions, uid: nat, gid: nat)
    ensures var args := ExpectedArgs(o, uid, gid);
      var u := if o.asUser then 6 else 0;
      var e := if o.entryPoint != "" then 2 else 0;
      && |args| == 3 + u + e + |o.cmd|
      && args[..2] == ["run", "--rm"]
      && (o.asUser ==> args[2..8] == UserFlags(uid, gid))
      && (o.entryPoint != "" ==> args[2 + u..4 + u] == ["--entrypoint", o.entryPoint])
      && args[2 + u + e] == o.image
      && args[3 + u + e..] == o.cmd
  {
  }

  /** Without user mapping and entrypoint the vector is `run --rm <image> <cmd...>`. */
  lemma PlainArgs(o: RunOptions, uid: nat, gid: nat)
    requires !o.asUser && o.entryPoint == ""
    ensures ExpectedArgs(o, uid, gid) == ["run", "--rm", o.image] + o.cmd
  {
  }

  /** "--entrypoint" is among the flags before the image exactly when EntryPoint is set. */
  lemma EntryPointFlagIff(o: RunOptions, uid: nat, gid: nat)
    ensures "--entrypoint" in Flags(o, uid, gid) <==> o.entryPoint != ""
  {
    if o.asUser {
      var s := UserSpec(uid, gid);
      UserSpecColon(uid, gid);
      assert s[0] != '-' by {
        if |Dec(uid)| == 0 { } else { assert IsDigit(s[0]); }
      }
      assert s != "--entrypoint";
    }
  }

  /** Only Image, EntryPoint, AsUser and Cmd (and the ids) influence the vector. */
  lemma ArgsIgnoreNameStdinVolumesWorkDir(o: RunOptions, uid: nat, gid: nat,
    name: string, stdin: bool, volumes: map<string, string>, workDir: string)
    ensures ExpectedArgs(o.(name := name, stdin := stdin, volumes := volumes, workDir := workDir), uid, gid)
         == ExpectedArgs(o, uid, gid)
  {
  }

  /** The ids are consulted only when AsUser holds. */
  lemma ArgsIgnoreIdsWithoutAsUser(o: RunOptions, u1: nat, g1: nat, u2: nat, g2: nat)
    requires !o.asUser
    ensures ExpectedArgs(o, u1, g1) == ExpectedArgs(o, u2, g2)
  {
  }

  /**
   * A fully populated RunOptions: only the user mapping, the entrypoint, the
   * image and the command reach the vector; the name, stdin flag, volume and
   * working directory produce no flags.
   */
  lemma FullOptionsExample()
    ensures ExpectedArgs(RunOptions("x", "img", true, true, "sh", map["/a" := "/a"], "/a", ["ls", "-l"]), 1000, 100)
         == ["run", "--rm",
             "-v", "/etc/passwd:/etc/passwd:ro", "-v", "/etc/group:/etc/group:ro", "-u", "1000:100",
             "--entrypoint", "sh", "img", "ls", "-l"]
  {
    assert Dec(1000) == "1000" && Dec(100) == "100";
    assert UserSpec(1000, 100) == "1000:100";
  }
}
