/**
 * The text the `formats` and `list` commands print: one line per registered
 * format with its aliases, and the recursive listing of the schematic files.
 */
module SchematicText {
  import opened Wrappers
  import opened SchematicFiles

  const FormatsHeader: string := "Доступные форматы схем (Name: Lookup names)"
  const ListHeader: string := "Доступные схемы (Название (формат)):"
  const UnknownFormatLabel: string := "Неизвестно"
  /** Every listing entry starts on a new line with the colour code section sign, 9. */
  const EntryMarker: string := "\n\U{00A7}9"

  const AliasSeparator: string := ", "

  /** The items with the separator between each two, and none before the first. */
  function Join(items: seq<string>, separator: string): string {
    if items == [] then ""
    else if |items| == 1 then items[0]
    else Join(items[..|items| - 1], separator) + separator + items[|items| - 1]
  }

  /** Join read from the front: the first item, then a separator before each further item. */
  lemma {:induction false} JoinFront(first: string, rest: seq<string>, separator: string)
    ensures Join([first] + rest, separator) == first + (if rest == [] then "" else separator + Join(rest, separator))
  {
    if |rest| > 1 {
      var all := [first] + rest;
      assert all[..|all| - 1] == [first] + rest[..|rest| - 1];
      JoinFront(first, rest[..|rest| - 1], separator);
    } else if |rest| == 1 {
      assert ([first] + rest)[..1] == [first];
    }
  }

  /** The line printed for one format: its name, ": ", then its aliases. */
  function FormatLine(format: Format): string {
    format.name + ": " + Join(format.aliases, AliasSeparator)
  }

  /** The line has no separator before the first alias. */
  lemma FormatLineStartsWithFirstAlias(format: Format)
    requires format.aliases != []
    ensures FormatLine(format) == format.name + ": " + format.aliases[0]
                                  + (if |format.aliases| == 1 then "" else AliasSeparator + Join(format.aliases[1..], AliasSeparator))
  {
    assert format.aliases == [format.aliases[0]] + format.aliases[1..];
    JoinFront(format.aliases[0], format.aliases[1..], AliasSeparator);
  }

  /** The `formats` command: the header, then one line per format in registry order. */
  method Formats(registry: seq<Format>) returns (lines: seq<string>)
    ensures |lines| == |registry| + 1 && lines[0] == FormatsHeader
    ensures forall i :: 0 <= i < |registry| ==> lines[i + 1] == FormatLine(registry[i])
  {
    lines := [FormatsHeader];
    var first := true;
    for i := 0 to |registry|
      invariant |lines| == i + 1 && lines[0] == FormatsHeader
      invariant forall k :: 0 <= k < i ==> lines[k + 1] == FormatLine(registry[k])
      invariant first
    {
      var format := registry[i];
      var builder := format.name + ": ";
      for j := 0 to |format.aliases|
        invariant builder == format.name + ": " + Join(format.aliases[..j], AliasSeparator)
        invariant first == (j == 0)
      {
        if !first {
          builder := builder + AliasSeparator;
        }
        builder := builder + format.aliases[j];
        first := false;
        assert format.aliases[..j + 1][..j] == format.aliases[..j];
      }
      assert format.aliases[..|format.aliases|] == format.aliases;
      first := true;
      lines := lines + [builder];
    }
  }

  /** One listing entry of a regular file. */
  function Entry(prefix: string, name: string, format: Option<Format>): string {
    EntryMarker + prefix + name + ": " + (match format case None => UnknownFormatLabel case Some(f) => f.name)
  }

  /**
   * What listFiles builds: an entry per regular file, the listing of a
   * directory's contents under the prefix extended by its name and "/", and
   * nothing for anything else.
   */
  function Listing(prefix: string, files: seq<Node>): string
    decreases files
  {
    if files == [] then ""
    else
      var file := files[|files| - 1];
      Listing(prefix, files[..|files| - 1])
      + match file.kind
        case RegularFile(_, format) => Entry(prefix, file.name, format)
        case Directory(children) => Listing(prefix + file.name + "/", children)
        case Special => ""
  }

  /** listFiles: appends to a builder in a loop and recurses into directories. */
  method ListFiles(prefix: string, files: seq<Node>) returns (text: string)
    ensures text == Listing(prefix, files)
    decreases files
  {
    var build := "";
    for i := 0 to |files|
      invariant build == Listing(prefix, files[..i])
    {
      var file := files[i];
      assert files[..i + 1][..i] == files[..i];
      if file.kind.Directory? {
        var nested := ListFiles(prefix + file.name + "/", file.kind.children);
        build := build + nested;
        continue;
      }
      if !file.kind.RegularFile? {
        continue;
      }
      build := build + EntryMarker;
      var format := file.kind.format;
      build := build + prefix + file.name + ": " + (if format.None? then UnknownFormatLabel else format.value.name);
    }
    assert files[..|files|] == files;
    text := build;
  }

  /** The concatenation of a sequence of texts. */
  function Concat(parts: seq<string>): string {
    if parts == [] then "" else Concat(parts[..|parts| - 1]) + parts[|parts| - 1]
  }

  /** The listing of consecutive runs of files is the concatenation of their listings. */
  lemma {:induction false} ListingAppend(prefix: string, a: seq<Node>, b: seq<Node>)
    ensures Listing(prefix, a + b) == Listing(prefix, a) + Listing(prefix, b)
  {
    if b != [] {
      var ab := a + b;
      assert ab[..|ab| - 1] == a + b[..|b| - 1];
      assert ab[|ab| - 1] == b[|b| - 1];
      ListingAppend(prefix, a, b[..|b| - 1]);
    } else {
      assert a + b == a;
    }
  }

  /** For a directory of regular files only: one entry per file, in the given order. */
  lemma {:induction false} ListingOfFiles(prefix: string, files: seq<Node>)
    requires AllFiles(files)
    ensures Listing(prefix, files)
            == Concat(seq(|files|, i requires 0 <= i < |files| => Entry(prefix, files[i].name, files[i].kind.format)))
  {
    var entries := seq(|files|, i requires 0 <= i < |files| => Entry(prefix, files[i].name, files[i].kind.format));
    if files != [] {
      var init := files[..|files| - 1];
      ListingOfFiles(prefix, init);
      assert entries[..|entries| - 1]
             == seq(|init|, i requires 0 <= i < |init| => Entry(prefix, init[i].name, init[i].kind.format));
    }
  }

  /** A directory entry lists its contents under the prefix extended by its name and "/". */
  lemma ListingOfDirectory(prefix: string, name: string, children: seq<Node>)
    ensures Listing(prefix, [Node(name, Directory(children))]) == Listing(prefix + name + "/", children)
  {
    assert [Node(name, Directory(children))][..0] == [];
  }
}
