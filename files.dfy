/**
 * The local file system as the agents see it: a map from path to what the
 * path names, plus the error each write to a path raises. Directories are
 * not represented.
 */
module Files {
  import opened Wrappers
  import opened PosixPath

  /** A regular file, or a symbolic link that does or does not resolve to a regular file. */
  datatype Node = Regular | Symlink(toRegularFile: bool)

  /** The errno classes the agents tell apart: EEXIST, and every other error. */
  datatype IoError = AlreadyExists | OtherError

  /** Paths absent from the map do not exist. */
  type Nodes = map<Path, Node>

  /** The error an attempt to write at a path raises (missing directory, permissions, ...). */
  type Faults = map<Path, IoError>

  /** The error a file operation raised, if any, and the file system after it. */
  datatype Effect = Effect(error: Option<IoError>, nodes: Nodes)

  /** os.path.isfile: true for a regular file and for a link that resolves to one. */
  predicate IsFile(nodes: Nodes, p: Path) {
    p in nodes && (nodes[p] == Regular || nodes[p] == Symlink(true))
  }

  /** os.path.islink. */
  predicate IsLink(nodes: Nodes, p: Path) {
    p in nodes && nodes[p].Symlink?
  }

  /** `os.path.isfile(p) and not os.path.islink(p)`: a regular file reached without a link. */
  predicate IsRegular(nodes: Nodes, p: Path)
    ensures IsRegular(nodes, p) <==> IsFile(nodes, p) && !IsLink(nodes, p)
  {
    p in nodes && nodes[p] == Regular
  }

  /** Only dest may change; nothing disappears. */
  predicate OnlyAt(before: Nodes, after: Nodes, dest: Path) {
    && before.Keys <= after.Keys
    && after.Keys <= before.Keys + {dest}
    && forall p :: p in before && p != dest ==> after[p] == before[p]
  }

  /**
   * shutil.copy2(src, dest): the same path on both sides raises SameFileError
   * (an OSError that is not EEXIST); a fault at dest raises; otherwise dest is
   * (over)written, through a link when dest is one.
   */
  function CopyEffect(nodes: Nodes, faults: Faults, src: Path, dest: Path): (e: Effect)
    ensures OnlyAt(nodes, e.nodes, dest)
    ensures e.error.None? ==> IsFile(e.nodes, dest)
    ensures e.error.Some? ==> e.nodes == nodes
    ensures e.error.None? <==> src != dest && dest !in faults
  {
    if src == dest then Effect(Some(OtherError), nodes)
    else if dest in faults then Effect(Some(faults[dest]), nodes)
    else if dest in nodes && nodes[dest].Symlink? then Effect(None, nodes[dest := Symlink(true)])
    else Effect(None, nodes[dest := Regular])
  }

  /** os.symlink(src, dest): EEXIST when dest exists already, a fault at dest raises, else a new link. */
  function SymlinkEffect(nodes: Nodes, faults: Faults, src: Path, dest: Path): (e: Effect)
    ensures OnlyAt(nodes, e.nodes, dest)
    ensures e.error.None? ==> IsLink(e.nodes, dest) && dest !in nodes
    ensures e.error.Some? ==> e.nodes == nodes
    ensures e.error == Some(AlreadyExists) <==> dest in nodes || (dest in faults && faults[dest] == AlreadyExists)
  {
    if dest in nodes then Effect(Some(AlreadyExists), nodes)
    else if dest in faults then Effect(Some(faults[dest]), nodes)
    else Effect(None, nodes[dest := Symlink(IsFile(nodes, src))])
  }

  /** The host's file system, changed in place by the two file operations. */
  class FileSystem {
    var nodes: Nodes
    const faults: Faults

    constructor (nodes: Nodes, faults: Faults)
      ensures this.nodes == nodes && this.faults == faults
    {
      this.nodes := nodes;
      this.faults := faults;
    }

    method Copy(src: Path, dest: Path) returns (error: Option<IoError>)
      modifies this
      ensures Effect(error, nodes) == CopyEffect(old(nodes), faults, src, dest)
    {
      var e := CopyEffect(nodes, faults, src, dest);
      error, nodes := e.error, e.nodes;
    }

    method Symlink(src: Path, dest: Path) returns (error: Option<IoError>)
      modifies this
      ensures Effect(error, nodes) == SymlinkEffect(old(nodes), faults, src, dest)
    {
      var e := SymlinkEffect(nodes, faults, src, dest);
      error, nodes := e.error, e.nodes;
    }
  }
}
