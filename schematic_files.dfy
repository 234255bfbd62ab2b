/**
 * The values the schematic commands work on: the clipboard formats of the
 * registry and the files of the schematic directory as the listing sees them.
 */
module SchematicFiles {
  import opened Wrappers

  /**
   * A registered clipboard format: its enum constant name and its lookup
   * aliases, in the order the format's alias collection yields them (that
   * collection is not part of this model). Readers, writers and content
   * sniffing are not modelled.
   */
  datatype Format = Format(name: string, aliases: seq<string>)

  /**
   * A file object as the catalog sees it: the name of its last path segment
   * and what it is. A regular file carries its modification time and the
   * format that content detection (findByFile) reports for it; a directory
   * carries what listing it returns, in the filesystem's order; Special is
   * anything that is neither.
   */
  datatype Node = Node(name: string, kind: NodeKind)

  datatype NodeKind =
    | RegularFile(lastModified: int, format: Option<Format>)
    | Directory(children: seq<Node>)
    | Special

  predicate IsFile(n: Node) {
    n.kind.RegularFile?
  }

  predicate AllFiles(s: seq<Node>) {
    forall k :: 0 <= k < |s| ==> IsFile(s[k])
  }
}
