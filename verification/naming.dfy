/**
 * The pure pieces of the PVC watcher: which claim phases count as degraded,
 * how a claim's name is turned into the name of the deployment that uses it,
 * and how a replica count is rendered inside an event message.
 */
module PvcNaming {
  import opened Wrappers

  /** The token that the naming convention appends to a deployment's name. */
  const PvcToken: string := "-pvc"

  /**
   * The handler reacts only to these two phases. A claim whose status has
   * no phase at all (`None`) is not degraded.
   */
  predicate IsDegraded(phase: Option<string>): (degraded: bool)
    ensures degraded ==> phase.Some? && |phase.value| > 0
  {
    phase == Some("Failed") || phase == Some("ReadOnly")
  }

  /** `s` holds the token starting at index `i`. */
  predicate TokenAt(s: string, i: nat)
  {
    i + |PvcToken| <= |s| && s[i..i + |PvcToken|] == PvcToken
  }

  ghost predicate HasToken(s: string)
  {
    exists i: nat :: TokenAt(s, i)
  }

  /**
   * `name.replace("-pvc", "")`: every non-overlapping occurrence of the token
   * is removed, scanning from the left, and the text between occurrences is
   * kept in order.
   */
  function DeploymentName(pvcName: string): (name: string)
    ensures |name| <= |pvcName|
    decreases |pvcName|
  {
    if |pvcName| < |PvcToken| then pvcName
    else if pvcName[..|PvcToken|] == PvcToken then DeploymentName(pvcName[|PvcToken|..])
    else [pvcName[0]] + DeploymentName(pvcName[1..])
  }

  /** Occurrences of the token in the tail are the occurrences in `s` after index 0. */
  lemma TokenInTail(s: string)
    requires |s| >= 1
    ensures forall i: nat :: TokenAt(s[1..], i) <==> TokenAt(s, i + 1)
  {
    forall i: nat
      ensures TokenAt(s[1..], i) <==> TokenAt(s, i + 1)
    {
      if i + |PvcToken| <= |s| - 1 {
        assert s[1..][i..i + |PvcToken|] == s[i + 1..i + 1 + |PvcToken|];
      }
    }
  }

  /** A name without the token is its own deployment name. */
  lemma {:induction false} NoTokenMapsToItself(s: string)
    requires !HasToken(s)
    ensures DeploymentName(s) == s
    decreases |s|
  {
    if |s| >= |PvcToken| {
      assert !TokenAt(s, 0);
      assert s[..|PvcToken|] == s[0..|PvcToken|];
      TokenInTail(s);
      NoTokenMapsToItself(s[1..]);
    }
  }

  /** A name holding the token maps to a strictly shorter name. */
  lemma {:induction false} TokenShortensName(s: string)
    requires HasToken(s)
    ensures |DeploymentName(s)| < |s|
    decreases |s|
  {
    var i: nat :| TokenAt(s, i);
    if s[..|PvcToken|] != PvcToken {
      assert s[..|PvcToken|] == s[0..|PvcToken|];
      assert i != 0;
      TokenInTail(s);
      assert TokenAt(s[1..], i - 1);
      TokenShortensName(s[1..]);
    }
  }

  /** The mapping leaves a name unchanged exactly when the name holds no token. */
  lemma NameUnchangedIffNoToken(s: string)
    ensures DeploymentName(s) == s <==> !HasToken(s)
  {
    if HasToken(s) {
      TokenShortensName(s);
    } else {
      NoTokenMapsToItself(s);
    }
  }

  /**
   * The naming convention: a deployment name without the token, followed by
   * the token, maps back to that deployment name.
   */
  lemma {:induction false} StripsTrailingToken(base: string)
    requires !HasToken(base)
    ensures DeploymentName(base + PvcToken) == base
    decreases |base|
  {
    var s := base + PvcToken;
    if |base| == 0 {
      assert s == PvcToken;
      assert s[|PvcToken|..] == [];
    } else {
      assert s[..|PvcToken|] != PvcToken by {
        if |base| >= |PvcToken| {
          assert !TokenAt(base, 0);
          assert s[..|PvcToken|] == base[0..|PvcToken|];
        } else {
          assert s[..|PvcToken|][|base|] == '-';
        }
      }
      TokenInTail(base);
      assert s[1..] == base[1..] + PvcToken;
      StripsTrailingToken(base[1..]);
    }
  }

  /** A token at the front of the name is dropped. */
  lemma LeadingTokenDropped(rest: string)
    ensures DeploymentName(PvcToken + rest) == DeploymentName(rest)
  {
    assert (PvcToken + rest)[..|PvcToken|] == PvcToken;
    assert (PvcToken + rest)[|PvcToken|..] == rest;
  }

  /** A first character that does not start a token is kept. */
  lemma LeadingCharKept(c: char, rest: string)
    requires !TokenAt([c] + rest, 0)
    ensures DeploymentName([c] + rest) == [c] + DeploymentName(rest)
  {
    var s := [c] + rest;
    assert s[1..] == rest;
    if |s| >= |PvcToken| {
      assert s[..|PvcToken|] == s[0..|PvcToken|];
    }
  }

  /** A name without the letter p cannot hold the token. */
  lemma NoTokenWithoutP(s: string)
    requires forall k :: 0 <= k < |s| ==> s[k] != 'p'
    ensures !HasToken(s)
  {
    forall i: nat
      ensures !TokenAt(s, i)
    {
      if i + |PvcToken| <= |s| {
        assert s[i..i + |PvcToken|][1] == s[i + 1];
      }
    }
  }

  /** The example of the naming convention: claim `data-pvc` belongs to deployment `data`. */
  lemma DataClaimMapsToData()
    ensures DeploymentName("data-pvc") == "data"
  {
    NoTokenWithoutP("data");
    StripsTrailingToken("data");
    assert "data" + PvcToken == "data-pvc";
  }

  /** Not only a trailing token is removed: one in the middle of the name goes too. */
  lemma InnerTokenIsRemoved()
    ensures DeploymentName("my" + PvcToken + "-data" + PvcToken) == "my" + "-data"
  {
    var tail := "-data" + PvcToken;
    var name := "my" + PvcToken + "-data" + PvcToken;
    assert name == ['m'] + (['y'] + (PvcToken + tail));
    assert name[0..|PvcToken|][0] == 'm';
    LeadingCharKept('m', ['y'] + (PvcToken + tail));
    assert (['y'] + (PvcToken + tail))[0..|PvcToken|][0] == 'y';
    LeadingCharKept('y', PvcToken + tail);
    LeadingTokenDropped(tail);
    NoTokenWithoutP("-data");
    StripsTrailingToken("-data");
    assert ['m'] + (['y'] + "-data") == "my" + "-data";
  }

  /**
   * One pass only: removing the token can join the text around it into a new
   * token, which stays, so the mapping is not idempotent.
   */
  lemma RemovalIsSinglePass()
    ensures DeploymentName("--pvcpvc") == "-pvc"
    ensures DeploymentName(DeploymentName("--pvcpvc")) == ""
  {
    assert "--pvcpvc" == ['-'] + (PvcToken + "pvc");
    assert (['-'] + (PvcToken + "pvc"))[0..|PvcToken|][1] == '-';
    LeadingCharKept('-', PvcToken + "pvc");
    LeadingTokenDropped("pvc");
    assert ['-'] + "pvc" == PvcToken;
    LeadingTokenDropped("");
    assert PvcToken + "" == PvcToken;
  }

  /** The character of the decimal digit `d`. */
  function DigitChar(d: nat): (c: char)
    requires d < 10
    ensures '0' <= c <= '9'
    ensures c as int - '0' as int == d
  {
    ('0' as int + d) as char
  }

  /** The number that a string of decimal digits denotes. */
  function DecimalValue(s: string): nat
    requires forall i :: 0 <= i < |s| ==> '0' <= s[i] <= '9'
    decreases |s|
  {
    if s == [] then 0
    else 10 * DecimalValue(s[..|s| - 1]) + (s[|s| - 1] as int - '0' as int)
  }

  /**
   * Python's `str(n)` for a non-negative integer: decimal digits, no leading
   * zero, denoting `n`.
   */
  function NatToString(n: nat): (s: string)
    ensures |s| >= 1
    ensures forall i :: 0 <= i < |s| ==> '0' <= s[i] <= '9'
    ensures s[0] == '0' ==> n == 0
    ensures |s| > 1 ==> s[0] != '0'
    ensures DecimalValue(s) == n
    decreases n
  {
    if n < 10 then [DigitChar(n)]
    else
      var prefix := NatToString(n / 10);
      var s := prefix + [DigitChar(n % 10)];
      assert s[..|s| - 1] == prefix;
      s
  }
}
