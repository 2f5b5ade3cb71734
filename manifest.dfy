/** Manifest entries and the two text files a backup stages beside the
    snapshot: the manifest file (one `<size> <objectKey>` line per entry)
    and the token list. Each writer has a reader here that inverts it. */
module Manifest {
  import opened Errors
  import opened Strings
  import opened Paths

  /** `ManifestEntry.Type`: the source gives table files and the token list
      the type FILE, and the manifest file the type MANIFEST_FILE. */
  datatype EntryType = File | ManifestFile

  /** A file to transfer: the key relative to the node's remote prefix,
      the local file, its size in bytes and its type. */
  datatype ManifestEntry = ManifestEntry(objectKey: Path, localFile: Path, size: nat, entryType: EntryType)

  /** `Joiner.on(' ').join(manifestEntry.size, manifestEntry.objectKey)`:
      the text up to the first space is the size in decimal, and the rest
      is the key. */
  function ManifestLine(e: ManifestEntry): (r: string)
    ensures SplitFirst(r, ' ').Some?
    ensures ParseNat(SplitFirst(r, ' ').value.0) == Some(e.size)
    ensures SplitFirst(r, ' ').value.1 == ToString(e.objectKey)
  {
    var digits := NatToString(e.size);
    assert !IsDigit(' ');
    assert ' ' !in digits;
    SplitFirstAt(digits, ToString(e.objectKey), ' ');
    NatToStringRoundTrip(e.size);
    digits + [' '] + ToString(e.objectKey)
  }

  /** The manifest file: one `println` of `ManifestLine` per entry, in
      order. It is empty exactly when there are no entries, and otherwise
      ends with the last line's break. */
  function ManifestText(entries: seq<ManifestEntry>): (r: string)
    ensures r == [] <==> entries == []
    ensures entries != [] ==> r[|r| - 1] == '\n'
  {
    PrintLines(Lines(entries))
  }

  function Lines(entries: seq<ManifestEntry>): (r: seq<string>)
    ensures |r| == |entries|
  {
    seq(|entries|, i requires 0 <= i < |entries| => ManifestLine(entries[i]))
  }

  /** What the manifest file records of each entry: its size and key text. */
  function Listed(entries: seq<ManifestEntry>): seq<(nat, string)>
  {
    if entries == [] then [] else [(entries[0].size, ToString(entries[0].objectKey))] + Listed(entries[1..])
  }

  /** A reader for the manifest file format. */
  function ParseManifestText(text: string): Option<seq<(nat, string)>>
  {
    var lines := Split(text, '\n');
    if lines[|lines| - 1] != "" then None else ParseLines(lines[..|lines| - 1])
  }

  function ParseLines(lines: seq<string>): Option<seq<(nat, string)>>
  {
    if lines == [] then Some([])
    else match SplitFirst(lines[0], ' ')
      case None => None
      case Some(fields) =>
        match (ParseNat(fields.0), ParseLines(lines[1..]))
        case (Some(size), Some(rest)) => Some([(size, fields.1)] + rest)
        case _ => None
  }

  // The two comment lines of the token list, each put together from its words.
  const TokenComment1 := "# automatically " + "generated by " + "cassandra-backup"
  const TokenComment2 := "# add the " + "following to " + "cassandra.yaml" + " when restoring" + " to a new" + " cluster."
  const InitialTokenKey := "initial_token: "

  /** The token list: two comment lines, then `initial_token: ` and the
      ring tokens joined with `,`. Its size is that of the fixed header,
      the joined tokens and three line breaks, and it ends with a break. */
  function TokenFileText(tokens: seq<string>): (r: string)
    ensures StartsWith(r, TokenComment1 + "\n" + TokenComment2 + "\n" + InitialTokenKey)
    ensures |r| == |TokenComment1| + |TokenComment2| + |InitialTokenKey| + |Join(tokens, ',')| + 3
    ensures r[|r| - 1] == '\n'
  {
    var header := TokenComment1 + "\n" + TokenComment2 + "\n" + InitialTokenKey;
    var text := PrintLines([TokenComment1, TokenComment2, InitialTokenKey + Join(tokens, ',')]);
    assert text == header + Join(tokens, ',') + "\n" by {
      var lines := [TokenComment1, TokenComment2, InitialTokenKey + Join(tokens, ',')];
      assert lines[..2] == [TokenComment1, TokenComment2];
      assert lines[..2][..1] == [TokenComment1];
      assert lines[..2][..1][..0] == [];
      assert PrintLines([TokenComment1]) == TokenComment1 + "\n";
      assert PrintLines(lines[..2]) == TokenComment1 + "\n" + TokenComment2 + "\n";
      assert text == TokenComment1 + "\n" + TokenComment2 + "\n" + (InitialTokenKey + Join(tokens, ',')) + "\n";
    }
    assert text[..|header|] == header;
    text
  }

  /** A reader for the token list format. */
  function ParseTokenFile(text: string): Option<seq<string>>
  {
    var lines := Split(text, '\n');
    if |lines| == 4 && lines[3] == "" && StartsWith(lines[0], "#") && StartsWith(lines[1], "#")
       && StartsWith(lines[2], InitialTokenKey)
    then Some(Split(lines[2][|InitialTokenKey|..], ','))
    else None
  }

  predicate KeysOnOneLine(entries: seq<ManifestEntry>)
  {
    forall i :: 0 <= i < |entries| ==> '\n' !in ToString(entries[i].objectKey)
  }

  // ---------------------------------------------------------------- lemmas

  lemma LineHasNoNewline(e: ManifestEntry)
    requires '\n' !in ToString(e.objectKey)
    ensures '\n' !in ManifestLine(e)
  {
    var digits := NatToString(e.size);
    assert !IsDigit('\n');
    assert '\n' !in digits;
  }

  lemma {:induction false} ParseLinesOfEntries(entries: seq<ManifestEntry>)
    ensures ParseLines(Lines(entries)) == Some(Listed(entries))
  {
    if entries != [] {
      var e := entries[0];
      assert Lines(entries)[0] == ManifestLine(e);
      ParseLinesOfEntries(entries[1..]);
      assert Lines(entries)[1..] == Lines(entries[1..]);
    }
  }

  /** The manifest file has one line per entry, in entry order, and
      nothing after the last line break. */
  lemma ManifestFileLines(entries: seq<ManifestEntry>)
    requires KeysOnOneLine(entries)
    ensures Split(ManifestText(entries), '\n') == Lines(entries) + [""]
  {
    forall i | 0 <= i < |entries|
      ensures '\n' !in Lines(entries)[i]
    {
      LineHasNoNewline(entries[i]);
    }
    SplitPrintLines(Lines(entries));
  }

  /** Reading the manifest file back gives every entry's size and key, in
      the order the entries were written. */
  lemma ManifestRoundTrip(entries: seq<ManifestEntry>)
    requires KeysOnOneLine(entries)
    ensures ParseManifestText(ManifestText(entries)) == Some(Listed(entries))
  {
    ManifestFileLines(entries);
    var parts := Lines(entries) + [""];
    assert parts[..|parts| - 1] == Lines(entries);
    ParseLinesOfEntries(entries);
  }

  lemma CommentsOnOneLine()
    ensures '\n' !in TokenComment1 && '\n' !in TokenComment2 && '\n' !in InitialTokenKey
  {
  }

  lemma TokenFileLines(tokens: seq<string>)
    requires forall i :: 0 <= i < |tokens| ==> '\n' !in tokens[i]
    ensures Split(TokenFileText(tokens), '\n') == [TokenComment1, TokenComment2, InitialTokenKey + Join(tokens, ','), ""]
  {
    JoinChars(tokens, ',', '\n');
    CommentsOnOneLine();
    SplitThreeLines(TokenComment1, TokenComment2, InitialTokenKey + Join(tokens, ','));
  }

  lemma SplitThreeLines(a: string, b: string, c: string)
    requires '\n' !in a && '\n' !in b && '\n' !in c
    ensures Split(PrintLines([a, b, c]), '\n') == [a, b, c, ""]
  {
    var lines := [a, b, c];
    assert forall i :: 0 <= i < |lines| ==> '\n' !in lines[i];
    SplitPrintLines(lines);
  }

  /** The token list is two `#` comment lines and an `initial_token:` line,
      and reading it back gives the ring tokens in order. */
  lemma TokenFileRoundTrip(tokens: seq<string>)
    requires |tokens| >= 1
    requires forall i :: 0 <= i < |tokens| ==> '\n' !in tokens[i] && ',' !in tokens[i]
    ensures |Split(TokenFileText(tokens), '\n')| == 4
    ensures StartsWith(Split(TokenFileText(tokens), '\n')[0], "#")
    ensures StartsWith(Split(TokenFileText(tokens), '\n')[1], "#")
    ensures ParseTokenFile(TokenFileText(tokens)) == Some(tokens)
  {
    TokenFileLines(tokens);
    var line := InitialTokenKey + Join(tokens, ',');
    assert line[|InitialTokenKey|..] == Join(tokens, ',');
    SplitJoin(tokens, ',');
  }

  /** With no ring tokens (an offline snapshot) the token line is empty. */
  lemma EmptyTokenFile(tokens: seq<string>)
    requires tokens == []
    ensures |Split(TokenFileText(tokens), '\n')| == 4
    ensures Split(TokenFileText(tokens), '\n')[2] == InitialTokenKey
    ensures ParseTokenFile(TokenFileText(tokens)) == Some([""])
  {
    TokenFileLines(tokens);
    var lines := Split(TokenFileText(tokens), '\n');
    assert InitialTokenKey + Join(tokens, ',') == InitialTokenKey;
    assert lines == [TokenComment1, TokenComment2, InitialTokenKey, ""];
    assert StartsWith(TokenComment1, "#") && StartsWith(TokenComment2, "#");
    assert StartsWith(InitialTokenKey, InitialTokenKey);
    assert InitialTokenKey[|InitialTokenKey|..] == "";
    assert Split("", ',') == [""];
  }
}
