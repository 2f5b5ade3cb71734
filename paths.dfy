/** The part of `java.nio.file.Path` (Unix file system) that the backup and
    restore code relies on: parsing with `Paths.get`, `resolve`,
    `getParent`, `getFileName` and `toString`. */
module Paths {
  import opened Errors
  import opened Strings

  /** A path is absolute or relative and has a sequence of name elements;
      the root `/` is the absolute path with no names. */
  datatype Path = Path(absolute: bool, names: seq<string>)

  /** A single name element: non-empty, without a separator or a NUL. */
  predicate IsName(s: string)
  {
    s != "" && '/' !in s && '\0' !in s
  }

  predicate PlainNames(names: seq<string>)
  {
    forall i :: 0 <= i < |names| ==> IsName(names[i])
  }

  /** `Path.toString()`. */
  function ToString(p: Path): string
  {
    (if p.absolute then "/" else "") + Join(p.names, '/')
  }

  function NonEmpty(parts: seq<string>): (r: seq<string>)
    ensures forall i :: 0 <= i < |r| ==> r[i] != ""
  {
    if parts == [] then []
    else if parts[0] == "" then NonEmpty(parts[1..])
    else [parts[0]] + NonEmpty(parts[1..])
  }

  /** `Paths.get(s)`: a NUL is an invalid path; otherwise a leading `/`
      makes the path absolute, and redundant and trailing separators are
      dropped. */
  function Parse(s: string): (r: Result<Path>)
    ensures r.Err? <==> '\0' in s
    ensures r.Ok? ==> PlainNames(r.value.names) && r.value.absolute == StartsWith(s, "/")
  {
    if '\0' in s then Err(InvalidPath)
    else
      SplitParts(s, '/', '\0');
      NonEmptyKeeps(Split(s, '/'), '/', '\0');
      Ok(Path(|s| > 0 && s[0] == '/', NonEmpty(Split(s, '/'))))
  }

  /** `base.resolve(other)`: an absolute `other` replaces `base`; otherwise
      its names are appended. */
  function Resolve(base: Path, other: Path): (r: Path)
    ensures other.absolute ==> r == other
    ensures !other.absolute ==> r.absolute == base.absolute && r.names == base.names + other.names
  {
    if other.absolute then other else Path(base.absolute, base.names + other.names)
  }

  /** `getFileName()`: the last name, or null for the root and the empty path. */
  function FileName(p: Path): Option<string>
  {
    if p.names == [] then None else Some(p.names[|p.names| - 1])
  }

  /** `getParent()`: null for a relative path of one name and for the root. */
  function Parent(p: Path): Option<Path>
  {
    if p.names == [] || (!p.absolute && |p.names| == 1) then None
    else Some(Path(p.absolute, p.names[..|p.names| - 1]))
  }

  // ---------------------------------------------------------------- lemmas

  /** The parts `Split` yields never hold the separator, nor any character
      absent from the text. */
  lemma {:induction false} SplitParts(s: string, sep: char, c: char)
    ensures forall i :: 0 <= i < |Split(s, sep)| ==> sep !in Split(s, sep)[i]
    ensures c !in s ==> forall i :: 0 <= i < |Split(s, sep)| ==> c !in Split(s, sep)[i]
  {
    if s != [] {
      SplitParts(s[1..], sep, c);
    }
  }

  lemma {:induction false} NonEmptyKeeps(parts: seq<string>, sep: char, c: char)
    requires forall i :: 0 <= i < |parts| ==> sep !in parts[i] && c !in parts[i]
    ensures forall i :: 0 <= i < |NonEmpty(parts)| ==> sep !in NonEmpty(parts)[i] && c !in NonEmpty(parts)[i]
  {
    if parts != [] {
      NonEmptyKeeps(parts[1..], sep, c);
    }
  }

  lemma {:induction false} NonEmptyOfNames(names: seq<string>)
    requires forall i :: 0 <= i < |names| ==> names[i] != ""
    ensures NonEmpty(names) == names
  {
    if names != [] {
      NonEmptyOfNames(names[1..]);
      assert [names[0]] + names[1..] == names;
    }
  }

  lemma JoinStartsWithFirst(parts: seq<string>, sep: char)
    requires parts != []
    ensures StartsWith(Join(parts, sep), parts[0])
  {
    if |parts| > 1 {
      assert Join(parts, sep) == parts[0] + ([sep] + Join(parts[1..], sep));
    }
  }

  lemma NamesOfText(p: Path)
    requires PlainNames(p.names)
    ensures NonEmpty(Split(ToString(p), '/')) == p.names
  {
    NonEmptyOfNames(p.names);
    var joined := Join(p.names, '/');
    if p.names == [] {
      assert Split("/", '/') == ["", ""];
    } else {
      SplitJoin(p.names, '/');
      if p.absolute {
        assert ToString(p) == [] + ['/'] + joined;
        SplitAtSeparator([], joined, '/');
        var parts := [""] + p.names;
        assert Split(ToString(p), '/') == parts;
        assert parts[0] == "" && parts[1..] == p.names;
        assert NonEmpty(parts) == NonEmpty(p.names);
      } else {
        assert ToString(p) == joined;
      }
    }
  }

  lemma AbsoluteOfText(p: Path)
    requires PlainNames(p.names)
    ensures (|ToString(p)| > 0 && ToString(p)[0] == '/') == p.absolute
  {
    if !p.absolute && p.names != [] {
      JoinStartsWithFirst(p.names, '/');
      assert ToString(p)[0] == p.names[0][0];
    }
  }

  /** Parsing the text of a path with plain names gives the path back. */
  lemma ParseToString(p: Path)
    requires PlainNames(p.names)
    ensures Parse(ToString(p)) == Ok(p)
  {
    JoinChars(p.names, '/', '\0');
    assert '\0' !in ToString(p);
    NamesOfText(p);
    AbsoluteOfText(p);
  }
}
