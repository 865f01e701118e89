/**
  `str(Path(s))` on a POSIX system: the root ("", "/" or, for exactly two
  leading slashes, "//") followed by the path's components joined by "/",
  where empty and "." components are dropped and ".." is kept; an empty
  result reads ".".
 */
module PosixPath {
  import Words

  /** The root of `s`: "//" for exactly two leading slashes, "/" for one or three and more. */
  function Root(s: string): (root: string)
    ensures root == "" || root == "/" || root == "//"
    ensures |root| <= |s| && root == s[..|root|]
  {
    if |s| >= 2 && s[0] == '/' && s[1] == '/' && !(|s| >= 3 && s[2] == '/') then "//"
    else if |s| >= 1 && s[0] == '/' then "/"
    else ""
  }

  predicate Kept(part: string) {
    part != "" && part != "."
  }

  /** The components that survive normalisation, in order. */
  function KeptParts(parts: seq<string>): (kept: seq<string>)
    ensures forall k :: 0 <= k < |kept| ==> Kept(kept[k])
    ensures |kept| <= |parts|
  {
    if parts == [] then []
    else if Kept(parts[0]) then [parts[0]] + KeptParts(parts[1..])
    else KeptParts(parts[1..])
  }

  function Components(s: string): seq<string> {
    KeptParts(Words.Split(s, '/'))
  }

  /** `str(Path(s))`. */
  function Normalize(s: string): (n: string)
    ensures n != ""
  {
    var root := Root(s);
    var parts := Components(s);
    if root == "" && parts == [] then "." else root + Words.Join(parts, '/')
  }

  lemma {:induction false} KeptPartsAppend(a: seq<string>, b: seq<string>)
    ensures KeptParts(a + b) == KeptParts(a) + KeptParts(b)
  {
    if a != [] {
      assert (a + b)[0] == a[0] && (a + b)[1..] == a[1..] + b;
      KeptPartsAppend(a[1..], b);
    } else {
      assert a + b == b;
    }
  }

  lemma {:induction false} KeptPartsAllKept(parts: seq<string>)
    requires forall k :: 0 <= k < |parts| ==> Kept(parts[k])
    ensures KeptParts(parts) == parts
  {
    if parts != [] {
      KeptPartsAllKept(parts[1..]);
    }
  }

  /** The components of the joined components are those components. */
  lemma JoinedComponents(parts: seq<string>)
    requires forall k :: 0 <= k < |parts| ==> Kept(parts[k]) && Words.FreeOf(parts[k], '/')
    ensures Components(Words.Join(parts, '/')) == parts
  {
    if parts == [] {
      assert Words.Split("", '/') == [""];
    } else {
      Words.SplitJoin(parts, '/');
      KeptPartsAllKept(parts);
    }
  }

  /** The parts of `s` contain no "/", so they can be joined and split again. */
  lemma ComponentsFree(s: string)
    ensures forall k :: 0 <= k < |Components(s)| ==> Words.FreeOf(Components(s)[k], '/')
  {
    Words.SplitPiecesFree(s, '/');
    KeptPartsFree(Words.Split(s, '/'));
  }

  lemma {:induction false} KeptPartsFree(parts: seq<string>)
    requires Words.AllFreeOf(parts, '/')
    ensures Words.AllFreeOf(KeptParts(parts), '/')
  {
    if parts != [] {
      KeptPartsFree(parts[1..]);
    }
  }

  /** "." is its own normal form. */
  lemma DotIsNormal()
    ensures Normalize(".") == "."
  {
    var rest := Words.Split("", '/');
    assert "."[1..] == "" && rest == [""];
    assert Words.Split(".", '/') == [['.'] + rest[0]] + rest[1..];
    assert ['.'] + rest[0] == "." && rest[1..] == [];
  }

  /** The first character of joined non-empty, slash-free components is not a slash. */
  lemma JoinedStartsWithPart(parts: seq<string>)
    requires |parts| >= 1 && Kept(parts[0]) && Words.FreeOf(parts[0], '/')
    ensures |Words.Join(parts, '/')| >= 1 && Words.Join(parts, '/')[0] != '/'
  {
    var joined := Words.Join(parts, '/');
    if |parts| > 1 {
      assert joined == parts[0] + (['/'] + Words.Join(parts[1..], '/'));
    }
    assert joined[0] == parts[0][0];
    assert parts[0][0] in parts[0];
  }

  /** A leading slash adds only an empty component, which is dropped. */
  lemma ComponentsAfterSlash(t: string)
    requires |t| >= 1 && t[0] == '/'
    ensures Components(t) == Components(t[1..])
  {
    var pieces := Words.Split(t, '/');
    assert pieces == [""] + Words.Split(t[1..], '/');
    assert pieces[0] == "" && pieces[1..] == Words.Split(t[1..], '/');
  }

  /** "/" followed by joined components reads back as that root and those components. */
  lemma SlashRootedComponents(parts: seq<string>)
    requires forall k :: 0 <= k < |parts| ==> Kept(parts[k]) && Words.FreeOf(parts[k], '/')
    ensures Root("/" + Words.Join(parts, '/')) == "/"
    ensures Components("/" + Words.Join(parts, '/')) == parts
  {
    var joined := Words.Join(parts, '/');
    var n := "/" + joined;
    if parts != [] {
      JoinedStartsWithPart(parts);
      assert n[1] == joined[0];
    } else {
      assert n == "/";
    }
    JoinedComponents(parts);
    assert n[1..] == joined;
    ComponentsAfterSlash(n);
  }

  /** "//" followed by joined components reads back as that root and those components. */
  lemma DoubleSlashRootedComponents(parts: seq<string>)
    requires forall k :: 0 <= k < |parts| ==> Kept(parts[k]) && Words.FreeOf(parts[k], '/')
    ensures Root("//" + Words.Join(parts, '/')) == "//"
    ensures Components("//" + Words.Join(parts, '/')) == parts
  {
    var joined := Words.Join(parts, '/');
    var n := "//" + joined;
    assert n[0] == '/' && n[1] == '/';
    if parts != [] {
      JoinedStartsWithPart(parts);
      assert n[2] == joined[0];
    } else {
      assert |n| == 2;
    }
    JoinedComponents(parts);
    assert n[1..][1..] == joined;
    ComponentsAfterSlash(n);
    ComponentsAfterSlash(n[1..]);
  }

  /** A leading "./" is dropped: `str(Path("./" + name))` is `name`. */
  lemma DotSlashDropped(name: string)
    requires Kept(name) && Words.FreeOf(name, '/')
    ensures Normalize("./" + name) == name
  {
    var t := "./" + name;
    assert t[0] == '.' && t[1] == '/' && t[1..][1..] == name;
    var rest := Words.Split(t[1..], '/');
    Words.SplitFree(name, '/');
    assert rest == [""] + [name];
    assert Words.Split(t, '/') == [['.'] + rest[0]] + rest[1..];
    assert ['.'] + rest[0] == "." && rest[1..] == [name];
    var pieces := [".", name];
    assert Words.Split(t, '/') == pieces;
    assert pieces[1..] == [name] && [name][1..] == [];
    assert KeptParts([name]) == [name];
    assert Components(t) == [name];
  }

  /** Normalising twice is normalising once: the `--output_dir` value is a fixed point. */
  lemma NormalizeIdempotent(s: string)
    ensures Normalize(Normalize(s)) == Normalize(s)
  {
    var root := Root(s);
    var parts := Components(s);
    ComponentsFree(s);
    if root == "" && parts == [] {
      DotIsNormal();
    } else if root == "" {
      JoinedComponents(parts);
      JoinedStartsWithPart(parts);
    } else if root == "/" {
      SlashRootedComponents(parts);
    } else {
      DoubleSlashRootedComponents(parts);
    }
  }
}
