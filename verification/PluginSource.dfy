/**
 * Plugin source references: a source, and after the last colon an optional path inside it. The
 * colon of a URL's authority and the one of `user@host:path` do not count as separators.
 */
module PluginSource {
  import opened Wrappers
  import opened Sequences

  datatype Reference = Reference(source: string, pluginPath: Option<string>)

  datatype PathError = NotPortable

  /** The characters that `\s` matches. */
  predicate IsSpace(c: char) {
    '\t' <= c <= '\r' || c == ' ' || c == '\U{a0}' || c == '\U{1680}' || '\U{2000}' <= c <= '\U{200a}'
    || c == '\U{2028}' || c == '\U{2029}' || c == '\U{202f}' || c == '\U{205f}' || c == '\U{3000}' || c == '\U{feff}'
  }

  predicate HasSpace(s: string) { exists i :: 0 <= i < |s| && IsSpace(s[i]) }

  predicate IsLetter(c: char) { 'A' <= c <= 'Z' || 'a' <= c <= 'z' }

  /** `s.split(/[\\/]/)`. */
  function Parts(s: string): seq<string> {
    if s == "" then [""]
    else if s[0] == '/' || s[0] == '\\' then [""] + Parts(s[1..])
    else [[s[0]] + Parts(s[1..])[0]] + Parts(s[1..])[1..]
  }

  predicate IsPortable(path: string) {
    if path == "." then true
    else if path == "" || path[0] == '/' || path[0] == '\\' then false
    else if (|path| > 1 && IsLetter(path[0]) && path[1] == ':') || ':' in path then false
    else forall part :: part in Parts(path) ==> part != "" && part != "." && part != ".."
  }

  predicate SchemeAt(s: string, i: nat) {
    i + 3 <= |s| && s[i] == ':' && s[i + 1] == '/' && s[i + 2] == '/'
  }

  /** `s.indexOf("://")`, as an option. */
  function SchemeEnd(s: string, from: nat): (r: Option<nat>)
    requires from <= |s|
    ensures r.Some? ==> from <= r.value && SchemeAt(s, r.value) && forall i :: from <= i < r.value ==> !SchemeAt(s, i)
    ensures r.None? ==> forall i :: from <= i ==> !SchemeAt(s, i)
    decreases |s| - from
  {
    if SchemeAt(s, from) then Some(from)
    else if from == |s| then None
    else SchemeEnd(s, from + 1)
  }

  /** Where the colon of a leading `user@host:` is: the match of `^[^/@\s]+@[^:\s]+:` ends there. */
  function ScpColon(s: string): Option<nat> {
    match IndexOf(s, '@', 0)
    case None => None
    case Some(at) =>
      if at == 0 || '/' in s[..at] || HasSpace(s[..at]) then None
      else
        match IndexOf(s, ':', at + 1)
        case None => None
        case Some(colon) =>
          if colon == at + 1 || HasSpace(s[at + 1..colon]) then None else Some(colon)
  }

  /** Is the colon at `separator` part of the source's own syntax? */
  predicate BelongsToSource(reference: string, separator: nat) {
    match SchemeEnd(reference, 0)
    case Some(scheme) =>
      (match IndexOf(reference, '/', scheme + 3)
       case None => true
       case Some(pathStart) => separator < pathStart)
    case None => ScpColon(reference) == Some(separator)
  }

  function Parse(reference: string): Reference {
    match LastIndexOf(reference, ':')
    case None => Reference(reference, None)
    case Some(separator) =>
      if !IsPortable(reference[separator + 1..]) || BelongsToSource(reference, separator) then
        Reference(reference, None)
      else Reference(reference[..separator], Some(reference[separator + 1..]))
  }

  function Format(r: Reference): Result<string, PathError> {
    match r.pluginPath
    case None => Ok(r.source)
    case Some(path) => if IsPortable(path) then Ok(r.source + ":" + path) else Err(NotPortable)
  }

  // ---------------------------------------------------------------------------
  // The parts of the grammar
  // ---------------------------------------------------------------------------

  lemma SchemeIsSpelled(s: string, i: nat)
    ensures SchemeAt(s, i) <==> i + 3 <= |s| && s[i..i + 3] == "://"
  {
    if i + 3 <= |s| {
      assert s[i..i + 3] == [s[i], s[i + 1], s[i + 2]];
    }
  }

  /** What `^[^/@\s]+@[^:\s]+:` matches up to a colon: a user, an at sign, and a host without colons. */
  predicate ScpMatch(s: string, at: nat, colon: nat) {
    && 0 < at && at + 1 < colon < |s| && s[at] == '@' && s[colon] == ':'
    && (forall i :: 0 <= i < at ==> s[i] != '/' && s[i] != '@' && !IsSpace(s[i]))
    && (forall i :: at < i < colon ==> s[i] != ':' && !IsSpace(s[i]))
  }

  /** The expression matches in one way at most, and the model finds where it ends. */
  lemma ScpExactly(s: string, colon: nat)
    ensures ScpColon(s) == Some(colon) <==> exists at: nat :: ScpMatch(s, at, colon)
  {
    hide IsSpace;
    var first := IndexOf(s, '@', 0);
    if at: nat :| ScpMatch(s, at, colon) {
      FirstIndexIs(s, '@', 0, at);
      FirstIndexIs(s, ':', at + 1, colon);
      var user, host := s[..at], s[at + 1..colon];
      assert forall i :: 0 <= i < |user| ==> user[i] == s[i];
      assert forall i :: 0 <= i < |host| ==> host[i] == s[at + 1 + i];
    }
    if ScpColon(s) == Some(colon) {
      var at := first.value;
      assert forall i :: 0 <= i < at ==> s[i] == s[..at][i] && s[i] == s[0..at][i];
      assert forall i :: at < i < colon ==> s[i] == s[at + 1..colon][i - (at + 1)];
      assert ScpMatch(s, at, colon);
    }
  }

  lemma FirstIndexIs(s: string, c: char, from: nat, k: nat)
    requires from <= k < |s| && s[k] == c && forall i :: from <= i < k ==> s[i] != c
    ensures IndexOf(s, c, from) == Some(k)
  {
    var r := IndexOf(s, c, from);
    assert s[from..][k - from] == c;
    assert r.Some? ==> forall i :: from <= i < r.value ==> s[i] == s[from..r.value][i - from];
  }

  /** Printing fails exactly for a path that is not portable. */
  lemma FormatFailsExactly(r: Reference)
    ensures Format(r).Err? <==> r.pluginPath.Some? && !IsPortable(r.pluginPath.value)
  {
  }

  // ---------------------------------------------------------------------------
  // Portable paths
  // ---------------------------------------------------------------------------

  predicate IsSlash(c: char) { c == '/' || c == '\\' }

  /** The text, or a piece of it between slashes, is one that no portable path has. */
  predicate BadPiece(s: string, i: nat, j: nat) {
    && i <= j <= |s| && (i == 0 || IsSlash(s[i - 1])) && (j == |s| || IsSlash(s[j]))
    && (s[i..j] == "" || s[i..j] == "." || s[i..j] == "..")
  }

  predicate GoodPart(part: string) { part != "" && part != "." && part != ".." }

  lemma PartsStep(s: string)
    requires s != ""
    ensures |Parts(s[1..])| > 0
    ensures Parts(s) == if IsSlash(s[0]) then [""] + Parts(s[1..])
                        else [[s[0]] + Parts(s[1..])[0]] + Parts(s[1..])[1..]
  {
  }

  /** The first part ends where the first slash is. */
  lemma {:induction false} FirstPart(s: string)
    ensures |Parts(s)| > 0 && |Parts(s)[0]| <= |s| && Parts(s)[0] == s[..|Parts(s)[0]|]
    ensures |Parts(s)[0]| == |s| || IsSlash(s[|Parts(s)[0]|])
    ensures forall i :: 0 <= i < |Parts(s)[0]| ==> !IsSlash(s[i])
  {
    if s != "" && !IsSlash(s[0]) {
      FirstPart(s[1..]);
      var n := |Parts(s[1..])[0]|;
      assert Parts(s)[0] == [s[0]] + s[1..][..n] == s[..n + 1];
      assert forall i :: 0 < i < n + 1 ==> s[i] == s[1..][i - 1];
    }
  }

  /** The parts behind the first one are those of the text behind the first slash. */
  lemma {:induction false} LaterParts(s: string)
    ensures |Parts(s)| > 0
    ensures var n := |Parts(s)[0]|;
            n <= |s| && Parts(s)[1..] == if n == |s| then [] else Parts(s[n + 1..])
  {
    FirstPart(s);
    if s != "" {
      PartsStep(s);
      if IsSlash(s[0]) {
        assert ([""] + Parts(s[1..]))[1..] == Parts(s[1..]);
      } else {
        LaterParts(s[1..]);
        FirstPart(s[1..]);
        var n := |Parts(s[1..])[0]|;
        assert Parts(s)[1..] == Parts(s[1..])[1..];
        assert n < |s[1..]| ==> s[1..][n + 1..] == s[n + 2..];
      }
    }
  }

  /** No bad piece begins in a good first part. */
  lemma OnlyPiece(s: string, n: nat, i: nat, j: nat)
    requires n <= |s| && GoodPart(s[..n]) && (forall k :: 0 <= k < n ==> !IsSlash(s[k])) && (n == |s| || IsSlash(s[n]))
    requires i <= n
    ensures !BadPiece(s, i, j)
  {
    assert n < j <= |s| && i == 0 ==> s[i..j][n] == s[n];
    assert i == 0 ==> s[i..n] == s[..n];
  }

  /** Behind a good first part, the bad pieces are those of the rest. */
  lemma LaterPieces(s: string, n: nat, i: nat, j: nat)
    requires n < |s| && IsSlash(s[n])
    ensures BadPiece(s[n + 1..], i, j) <==> BadPiece(s, n + 1 + i, n + 1 + j)
  {
    assert i <= j <= |s[n + 1..]| ==> s[n + 1..][i..j] == s[n + 1 + i..n + 1 + j];
  }

  ghost predicate HasBadPiece(s: string) { exists i: nat, j: nat :: BadPiece(s, i, j) }

  lemma BadBehind(s: string, n: nat)
    requires n < |s| && GoodPart(s[..n]) && (forall k :: 0 <= k < n ==> !IsSlash(s[k])) && IsSlash(s[n])
    ensures HasBadPiece(s) <==> HasBadPiece(s[n + 1..])
  {
    var rest := s[n + 1..];
    if i: nat, j: nat :| BadPiece(s, i, j) {
      if i <= n {
        OnlyPiece(s, n, i, j);
        assert false;
      }
      LaterPieces(s, n, i - (n + 1), j - (n + 1));
      assert BadPiece(rest, i - (n + 1), j - (n + 1));
    }
    if i: nat, j: nat :| BadPiece(rest, i, j) {
      LaterPieces(s, n, i, j);
      assert BadPiece(s, n + 1 + i, n + 1 + j);
    }
  }

  /** All parts are good exactly if there is no bad piece. */
  lemma {:induction false} GoodPartsExactly(s: string)
    ensures (forall part :: part in Parts(s) ==> GoodPart(part)) <==> !HasBadPiece(s)
    decreases |s|
  {
    FirstPart(s);
    LaterParts(s);
    var parts, n := Parts(s), |Parts(s)[0]|;
    assert parts == [parts[0]] + parts[1..];
    hide Parts;
    if !GoodPart(parts[0]) {
      assert s[0..n] == s[..n];
      assert BadPiece(s, 0, n);
    } else if n == |s| {
      forall i: nat, j: nat ensures !BadPiece(s, i, j) {
        if i <= n {
          OnlyPiece(s, n, i, j);
        }
      }
    } else {
      hide GoodPart, BadPiece, HasBadPiece;
      GoodPartsExactly(s[n + 1..]);
      BadBehind(s, n);
    }
  }

  /**
   * Which paths are portable: the path `.`, and those without a colon that have no empty piece,
   * no `.` and no `..` between slashes of either kind.
   */
  lemma PortableExactly(path: string)
    ensures IsPortable(path)
       <==> path == "." || (':' !in path && !HasBadPiece(path))
  {
    GoodPartsExactly(path);
    hide Parts;
    if path == "" {
      assert BadPiece(path, 0, 0);
    } else if IsSlash(path[0]) {
      assert path[0..0] == "" && BadPiece(path, 0, 0);
    }
    assert |path| > 1 && path[1] == ':' ==> ':' in path;
    assert (forall part :: part in Parts(path) ==> GoodPart(part))
       <==> forall part :: part in Parts(path) ==> part != "" && part != "." && part != "..";
  }

  /** The white space of a regular expression, by code points (sections 12.2 and 12.3 of ECMA-262). */
  lemma SpacesExactly(c: char)
    ensures IsSpace(c) <==> c as int in {9, 10, 11, 12, 13, 0x20, 0xa0, 0x1680, 0x2000, 0x2001, 0x2002, 0x2003, 0x2004,
                                         0x2005, 0x2006, 0x2007, 0x2008, 0x2009, 0x200a, 0x2028, 0x2029, 0x202f,
                                         0x205f, 0x3000, 0xfeff}
  {
  }

  // ---------------------------------------------------------------------------
  // Round trips
  // ---------------------------------------------------------------------------

  /** Printing what was parsed gives the reference back, for every reference. */
  lemma FormatParse(reference: string)
    ensures Format(Parse(reference)) == Ok(reference)
  {
    match LastIndexOf(reference, ':')
    case None =>
    case Some(separator) =>
      assert reference == reference[..separator] + ":" + reference[separator + 1..];
  }

  lemma PortableHasNoColon(path: string)
    requires IsPortable(path)
    ensures path != "" && ':' !in path && path[0] != '/'
  {
  }

  lemma LastIndexIs(s: string, c: char, k: nat)
    requires k < |s| && s[k] == c && c !in s[k + 1..]
    ensures LastIndexOf(s, c) == Some(k)
  {
    var r := LastIndexOf(s, c);
    assert c in s && r.Some?;
    assert forall j :: r.value < j < |s| ==> s[j] == s[r.value + 1..][j - r.value - 1];
    assert forall j :: k < j < |s| ==> s[j] == s[k + 1..][j - k - 1];
  }

  lemma SeparatorIsLastColon(source: string, path: string)
    requires ':' !in path
    ensures LastIndexOf(source + ":" + path, ':') == Some(|source|)
  {
    assert (source + ":" + path)[|source| + 1..] == path;
    LastIndexIs(source + ":" + path, ':', |source|);
  }

  /** Appending a path adds no `://`. */
  lemma SchemeStays(source: string, path: string)
    requires ':' !in path && path != "" && path[0] != '/'
    ensures SchemeEnd(source + ":" + path, 0) == SchemeEnd(source, 0)
  {
    var s := source + ":" + path;
    assert forall i :: 0 <= i < |source| ==> s[i] == source[i];
    assert s[|source|] == ':' && s[|source| + 1] == path[0];
    assert forall i :: |source| < i < |s| ==> s[i] == path[i - |source| - 1];
    assert forall i: nat :: SchemeAt(s, i) <==> SchemeAt(source, i);
  }

  lemma IndexIs(s: string, c: char, from: nat, k: nat)
    requires from <= k < |s| && s[k] == c && c !in s[from..k]
    ensures IndexOf(s, c, from) == Some(k)
  {
    var r := IndexOf(s, c, from);
    assert s[from..][k - from] == c && r.Some?;
    assert forall i :: from <= i < r.value ==> s[i] == s[from..r.value][i - from];
    assert forall i :: from <= i < k ==> s[i] == s[from..k][i - from];
  }

  lemma IndexOfExtends(source: string, rest: string, c: char, from: nat)
    requires from <= |source|
    ensures IndexOf(source, c, from).Some? ==> IndexOf(source + rest, c, from) == IndexOf(source, c, from)
    ensures IndexOf(source, c, from).None? && IndexOf(source + rest, c, from).Some? ==>
              IndexOf(source + rest, c, from).value >= |source|
  {
    var s, a := source + rest, IndexOf(source, c, from);
    if a.Some? {
      assert s[from..a.value] == source[from..a.value];
      IndexIs(s, c, from, a.value);
    } else {
      assert forall i :: from <= i < |source| ==> s[i] == source[i] == source[from..][i - from];
    }
  }

  /** `user@host` and nothing else: the whole source up to a separator would be taken for an scp host. */
  predicate IsBareHost(source: string) {
    match IndexOf(source, '@', 0)
    case None => false
    case Some(at) =>
      && at > 0 && '/' !in source[..at] && !HasSpace(source[..at])
      && at + 1 < |source| && ':' !in source[at + 1..] && !HasSpace(source[at + 1..])
  }

  /** A source to which a path can be appended: a URL with a path, or no bare `user@host`. */
  predicate TakesPath(source: string) {
    match SchemeEnd(source, 0)
    case Some(scheme) => '/' in source[scheme + 3..]
    case None => !IsBareHost(source)
  }

  lemma SlashAfter(source: string, from: nat)
    requires from <= |source|
    ensures IndexOf(source, '/', from).None? <==> '/' !in source[from..]
  {
    hide IndexOf;
    var r := IndexOf(source, '/', from);
    assert r.Some? ==> source[from..][r.value - from] == '/';
  }

  lemma UrlSeparator(source: string, path: string, scheme: nat)
    requires SchemeEnd(source, 0) == Some(scheme) && ':' !in path && path != "" && path[0] != '/'
    ensures BelongsToSource(source + ":" + path, |source|) <==> '/' !in source[scheme + 3..]
  {
    hide IndexOf, SchemeEnd;
    var s := source + ":" + path;
    SchemeStays(source, path);
    SlashAfter(source, scheme + 3);
    assert s == source + (":" + path);
    IndexOfExtends(source, ":" + path, '/', scheme + 3);
    assert s[|source|] == ':';
  }

  lemma ScpSeparator(source: string, path: string)
    requires ':' !in path
    ensures ScpColon(source + ":" + path) == Some(|source|) <==> IsBareHost(source)
  {
    var s := source + ":" + path;
    assert s == source + (":" + path) && s[|source|] == ':';
    IndexOfExtends(source, ":" + path, '@', 0);
    var at, whole := IndexOf(source, '@', 0), IndexOf(s, '@', 0);
    if at.Some? {
      assert s[..at.value] == source[..at.value];
      IndexOfExtends(source, ":" + path, ':', at.value + 1);
      ColonAfter(source, path, at.value + 1);
      assert s[at.value + 1..|source|] == source[at.value + 1..];
    } else if whole.Some? {
      ColonAfterSource(source, path, whole.value);
    }
  }

  /** From a position in the source on, the first colon is the separator exactly if the source has none. */
  lemma ColonAfter(source: string, path: string, from: nat)
    requires from <= |source| && ':' !in path
    ensures IndexOf(source + ":" + path, ':', from) == Some(|source|) <==> ':' !in source[from..]
  {
    var s := source + ":" + path;
    assert s[from..|source|] == source[from..] && s[|source|] == ':';
    if ':' !in source[from..] {
      IndexIs(s, ':', from, |source|);
    }
  }

  lemma ColonAfterSource(source: string, path: string, at: nat)
    requires ':' !in path && |source| <= at < |source + ":" + path|
    ensures IndexOf(source + ":" + path, ':', at + 1) != Some(|source|)
  {
  }

  /**
   * Parsing what was printed gives source and path back exactly when the source takes a path: a
   * URL must go on after its authority, and anything else must not be a bare `user@host`.
   */
  lemma ParseFormat(source: string, path: string)
    requires IsPortable(path)
    ensures Format(Reference(source, Some(path))) == Ok(source + ":" + path)
    ensures Parse(source + ":" + path) == Reference(source, Some(path)) <==> TakesPath(source)
  {
    var s := source + ":" + path;
    PortableHasNoColon(path);
    SeparatorIsLastColon(source, path);
    SchemeStays(source, path);
    assert s[..|source|] == source && s[|source| + 1..] == path;
    match SchemeEnd(source, 0) {
      case Some(scheme) => UrlSeparator(source, path, scheme);
      case None => ScpSeparator(source, path);
    }
    assert Parse(s) == Reference(source, Some(path)) <==> !BelongsToSource(s, |source|) by {
      if BelongsToSource(s, |source|) {
        assert Parse(s) == Reference(s, None);
      }
    }
  }
}
