/** The key under which a terminal-directory subscription is registered. */
module SubscriptionKey {
  import opened Wrappers

  datatype Subscription = Subscription(cwd: string, workspaceId: Option<string>)

  function Key(s: Subscription): string {
    match s.workspaceId
    case None => s.cwd
    case Some(id) => id + "::" + s.cwd
  }

  predicate IsHexDigit(c: char) { '0' <= c <= '9' || 'a' <= c <= 'f' }

  /** `wks_<hex>`, the shape of every workspace id. */
  predicate IsWorkspaceId(id: string) {
    |id| > 4 && id[..4] == "wks_" && forall i :: 4 <= i < |id| ==> IsHexDigit(id[i])
  }

  lemma WorkspaceIdExactly(id: string)
    ensures IsWorkspaceId(id)
       <==> |id| >= 5 && "wks_" <= id && forall i :: 4 <= i < |id| ==> id[i] in "0123456789abcdef"
  {
    forall i | 4 <= i < |id| ensures id[i] in "0123456789abcdef" <==> IsHexDigit(id[i]) {
      HexDigits(id[i]);
    }
    if |id| >= 5 {
      assert "wks_" <= id <==> id[..4] == "wks_";
    }
  }

  lemma HexDigits(c: char)
    ensures c in "0123456789abcdef" <==> IsHexDigit(c)
  {
    var digits := "0123456789abcdef";
    assert forall i :: 0 <= i < 16 ==> IsHexDigit(digits[i]);
    if '0' <= c <= '9' {
      assert digits[c as int - '0' as int] == c;
    }
    if 'a' <= c <= 'f' {
      assert digits[10 + (c as int - 'a' as int)] == c;
    }
  }

  /** A directory that itself reads as a workspace id, the separator, and a rest. */
  predicate LooksScoped(cwd: string) {
    exists n :: 0 <= n <= |cwd| - 2 && IsWorkspaceId(cwd[..n]) && cwd[n..n + 2] == "::"
  }

  predicate HasWorkspaceShape(s: Subscription) {
    s.workspaceId.Some? ==> IsWorkspaceId(s.workspaceId.value)
  }

  predicate WellFormed(s: Subscription) {
    HasWorkspaceShape(s) && (s.workspaceId.None? ==> !LooksScoped(s.cwd))
  }

  lemma ScopedKeyParts(id: string, cwd: string)
    requires IsWorkspaceId(id)
    ensures var key := id + "::" + cwd;
            && key[..|id|] == id && key[|id|..|id| + 2] == "::" && key[|id| + 2..] == cwd
            && ':' !in id && key[|id|] == ':'
  {
    var key := id + "::" + cwd;
    assert forall i :: 0 <= i < |id| ==> id[i] != ':' by {
      assert forall i :: 0 <= i < 4 ==> id[i] == id[..4][i];
    }
    assert key[|id|..|id| + 2] == "::";
  }

  lemma FirstColonUnique(key: string, i: nat, j: nat)
    requires i < |key| && ':' !in key[..i] && key[i] == ':'
    requires j < |key| && ':' !in key[..j] && key[j] == ':'
    ensures i == j
  {
    assert forall k :: 0 <= k < i ==> key[..i][k] == key[k];
    assert forall k :: 0 <= k < j ==> key[..j][k] == key[k];
  }

  /** The separator cannot collide with a workspace id. */
  lemma KeyInjective(a: Subscription, b: Subscription)
    requires WellFormed(a) && WellFormed(b) && Key(a) == Key(b)
    ensures a == b
  {
    if a.workspaceId.Some? {
      ScopedKeyParts(a.workspaceId.value, a.cwd);
    }
    if b.workspaceId.Some? {
      ScopedKeyParts(b.workspaceId.value, b.cwd);
    }
    if a.workspaceId.Some? && b.workspaceId.Some? {
      FirstColonUnique(Key(a), |a.workspaceId.value|, |b.workspaceId.value|);
    }
  }

  /** An unscoped subscription shares its key with a scoped one exactly when its directory looks scoped. */
  lemma UnscopedCollision(cwd: string)
    ensures LooksScoped(cwd)
       <==> exists s: Subscription ::
              s.workspaceId.Some? && HasWorkspaceShape(s) && Key(s) == Key(Subscription(cwd, None))
  {
    if LooksScoped(cwd) {
      var n :| 0 <= n <= |cwd| - 2 && IsWorkspaceId(cwd[..n]) && cwd[n..n + 2] == "::";
      var s := Subscription(cwd[n + 2..], Some(cwd[..n]));
      assert Key(s) == cwd;
    }
    forall s: Subscription | s.workspaceId.Some? && HasWorkspaceShape(s) && Key(s) == cwd
      ensures LooksScoped(cwd)
    {
      ScopedKeyParts(s.workspaceId.value, s.cwd);
    }
  }

  /** Absolute directories never look scoped, be they rooted, on a drive or on a network share. */
  lemma AbsoluteIsWellFormed(s: Subscription)
    requires HasWorkspaceShape(s)
    requires s.cwd != "" && (s.cwd[0] == '/' || s.cwd[0] == '\\' || (|s.cwd| > 1 && s.cwd[1] == ':'))
    ensures WellFormed(s)
  {
    forall n | 0 <= n <= |s.cwd| - 2 ensures !IsWorkspaceId(s.cwd[..n]) {
      if n > 4 {
        assert s.cwd[..n][..4] == s.cwd[..4];
        assert s.cwd[..4] != "wks_" by {
          assert s.cwd[..4][0] == s.cwd[0] && s.cwd[..4][1] == s.cwd[1];
          assert "wks_"[0] == 'w' && "wks_"[1] == 'k';
        }
      }
    }
  }
}
