/** The bundler's `manualChunks(id)` rule: every module under a `node_modules` directory
    goes into a chunk named after the path segment that follows the first
    `node_modules/`; other modules get no manual chunk. */
module ViteConfig {
  import opened Wrappers
  import opened JsString

  const NODE_MODULES: string := "node_modules"
  const NODE_MODULES_DIR: string := "node_modules/"

  /** What `manualChunks` does with an id: no chunk (`undefined`), a chunk name, or a
      `TypeError` when the id mentions `node_modules` without the following slash (the
      split then has no second piece to split again). */
  datatype ChunkResult = NoChunk | Chunk(name: string) | Throws

  /** `manualChunks(id)`. */
  function ManualChunks(id: string): ChunkResult {
    if !Includes(id, NODE_MODULES) then NoChunk
    else
      var pieces := Split(id, NODE_MODULES_DIR);
      if |pieces| < 2 then Throws
      else Chunk(Split(pieces[1], "/")[0])
  }

  /** The text after the first `node_modules/`. */
  function AfterFirstDir(id: string): string
    requires Includes(id, NODE_MODULES_DIR)
  {
    id[IndexOf(id, NODE_MODULES_DIR).value + |NODE_MODULES_DIR|..]
  }

  // ---------------------------------------------------------------------------
  // Properties

  /** `node_modules/` begins with `node_modules`. */
  lemma DirIncludesName(id: string)
    requires Includes(id, NODE_MODULES_DIR)
    ensures Includes(id, NODE_MODULES)
  {
    var i := IndexOf(id, NODE_MODULES_DIR).value;
    assert id[i..i + |NODE_MODULES|] == id[i..i + |NODE_MODULES_DIR|][..|NODE_MODULES|];
    assert OccursAt(id, NODE_MODULES, i);
  }

  /** The three outcomes: no chunk exactly when `node_modules` does not occur, an error
      exactly when it occurs but never followed by a slash, and a chunk otherwise. */
  lemma Outcomes(id: string)
    ensures ManualChunks(id).NoChunk? <==> !Includes(id, NODE_MODULES)
    ensures ManualChunks(id).Throws? <==> Includes(id, NODE_MODULES) && !Includes(id, NODE_MODULES_DIR)
    ensures ManualChunks(id).Chunk? <==> Includes(id, NODE_MODULES_DIR)
  {
    SplitManyIffIncludes(id, NODE_MODULES_DIR);
    if Includes(id, NODE_MODULES_DIR) {
      DirIncludesName(id);
    }
  }

  /** A chunk name never contains a slash, and it is a prefix of the text after the first
      `node_modules/` (so a nested `node_modules` further on does not decide it). */
  lemma ChunkIsFirstSegmentPrefix(id: string)
    requires ManualChunks(id).Chunk?
    ensures !Includes(ManualChunks(id).name, "/")
    ensures Includes(id, NODE_MODULES_DIR)
    ensures var rest := AfterFirstDir(id);
      var name := ManualChunks(id).name;
      |name| <= |rest| && rest[..|name|] == name
  {
    Outcomes(id);
    var pieces := Split(id, NODE_MODULES_DIR);
    SplitFirstPiece(id, NODE_MODULES_DIR);
    var rest := AfterFirstDir(id);
    assert pieces[1..] == Split(rest, NODE_MODULES_DIR);
    var piece := pieces[1];
    assert piece == Split(rest, NODE_MODULES_DIR)[0];
    SplitPrefix(rest, NODE_MODULES_DIR);
    SplitPrefix(piece, "/");
    SplitPiecesFree(piece, "/");
  }

  /** The first piece of a split is a prefix of the string. */
  lemma SplitPrefix(s: string, sep: string)
    requires |sep| > 0
    ensures |Split(s, sep)[0]| <= |s| && s[..|Split(s, sep)[0]|] == Split(s, sep)[0]
  {
  }

  /** A package directory right after the first `node_modules/`: when the first
      `node_modules/` of an id is at `i` and is followed by `name/after`, with a name free of
      slashes that does not itself end in `node_modules`, the chunk is `name`. For a scoped
      package `@scope/pkg` that name is the scope, so a scope's packages share a chunk. */
  lemma PackageChunk(id: string, i: nat, name: string, after: string)
    requires !Includes(name, "/") && !Includes(name + "/", NODE_MODULES_DIR)
    requires IndexOf(id, NODE_MODULES_DIR) == Some(i)
    requires i + |NODE_MODULES_DIR| <= |id|
    requires id[i + |NODE_MODULES_DIR|..] == name + "/" + after
    ensures ManualChunks(id) == Chunk(name)
  {
    ChunkOfRest(id, i, name + "/" + after);
    FirstSegmentIsName(name, after);
  }

  /** In `name/after`, the first slash-separated piece of the text before the first
      `node_modules/` is `name`. */
  lemma FirstSegmentIsName(name: string, after: string)
    requires !Includes(name, "/") && !Includes(name + "/", NODE_MODULES_DIR)
    ensures Split(Split(name + "/" + after, NODE_MODULES_DIR)[0], "/")[0] == name
  {
    PieceStartsWithName(name, after);
    SlashAfterName(Split(name + "/" + after, NODE_MODULES_DIR)[0], name);
  }

  /** When the first `node_modules/` of an id is at `i`, the chunk is the first
      slash-separated piece of the text from there up to the next one. */
  lemma ChunkOfRest(id: string, i: nat, rest: string)
    requires IndexOf(id, NODE_MODULES_DIR) == Some(i) && i + |NODE_MODULES_DIR| <= |id|
    requires id[i + |NODE_MODULES_DIR|..] == rest
    ensures ManualChunks(id) == Chunk(Split(Split(rest, NODE_MODULES_DIR)[0], "/")[0])
  {
    DirIncludesName(id);
    SplitSecondPiece(id, NODE_MODULES_DIR);
  }

  /** Cut at its first `node_modules/`, the text `name/after` still begins with `name/`. */
  lemma PieceStartsWithName(name: string, after: string)
    requires !Includes(name, "/") && !Includes(name + "/", NODE_MODULES_DIR)
    ensures var piece := Split(name + "/" + after, NODE_MODULES_DIR)[0];
      |piece| >= |name| + 1 && piece[..|name| + 1] == name + "/"
  {
    var rest := name + "/" + after;
    var piece := Split(rest, NODE_MODULES_DIR)[0];
    NoDirBefore(name, after);
    SplitPrefix(rest, NODE_MODULES_DIR);
    if Includes(rest, NODE_MODULES_DIR) {
      SplitFirstPiece(rest, NODE_MODULES_DIR);
    }
    assert |piece| >= |name| + 1;
    assert piece[..|name| + 1] == rest[..|name| + 1] == name + "/";
  }

  /** In `name/after`, with `name` free of slashes and `name/` free of `node_modules/`, the
      first `node_modules/` (if any) starts after the slash. */
  lemma NoDirBefore(name: string, after: string)
    requires !Includes(name, "/") && !Includes(name + "/", NODE_MODULES_DIR)
    ensures var rest := name + "/" + after;
      IndexOf(rest, NODE_MODULES_DIR).Some? ==> IndexOf(rest, NODE_MODULES_DIR).value > |name|
  {
    forall j | 0 <= j <= |name| ensures !OccursAt(name + "/" + after, NODE_MODULES_DIR, j) {
      NoDirAt(name, after, j);
    }
  }

  /** No `node_modules/` starts at a position up to the slash after `name`: its own slash
      would fall inside `name`, beyond the slash after it, or exactly on it, and the last
      case is an occurrence inside `name/`. */
  lemma NoDirAt(name: string, after: string, j: nat)
    requires !Includes(name, "/") && !Includes(name + "/", NODE_MODULES_DIR) && j <= |name|
    ensures !OccursAt(name + "/" + after, NODE_MODULES_DIR, j)
  {
    var rest := name + "/" + after;
    var k := |name|;
    if j + 13 <= |rest| {
      var w := rest[j..j + 13];
      if j + 12 < k {
        assert w[12] == name[j + 12];
        assert !OccursAt(name, "/", j + 12);
        assert name[j + 12..j + 13] == [name[j + 12]];
        assert w[12] != NODE_MODULES_DIR[12];
      } else if j + 12 > k {
        assert w[k - j] == rest[k] == '/';
        assert NODE_MODULES_DIR[k - j] != '/';
      } else {
        assert w == (name + "/")[j..j + 13];
        assert !OccursAt(name + "/", NODE_MODULES_DIR, j);
      }
    }
  }

  /** A string starting with `name/`, with no slash in `name`, has `name` as its first
      slash-separated piece. */
  lemma SlashAfterName(s: string, name: string)
    requires !Includes(name, "/") && |s| >= |name| + 1 && s[..|name| + 1] == name + "/"
    ensures Split(s, "/")[0] == name
  {
    var k := |name|;
    assert s[k] == (name + "/")[k];
    SlashAt(s, k);
    forall j | 0 <= j < k ensures !OccursAt(s, "/", j) {
      assert s[j] == (name + "/")[j] == name[j];
      SlashAt(s, j);
      SlashAt(name, j);
    }
    FirstOccurrence(s, "/", k);
    SplitFirstPiece(s, "/");
    assert s[..k] == (name + "/")[..k];
  }

  /** A slash occurs at a position exactly when the character there is a slash. */
  lemma SlashAt(s: string, j: nat)
    requires j < |s|
    ensures OccursAt(s, "/", j) <==> s[j] == '/'
  {
    assert s[j..j + 1] == [s[j]];
  }

  /** An occurrence with none before it is the one `indexOf` finds. */
  lemma FirstOccurrence(s: string, sep: string, k: nat)
    requires OccursAt(s, sep, k) && forall j :: 0 <= j < k ==> !OccursAt(s, sep, j)
    ensures IndexOf(s, sep) == Some(k)
  {
  }
}
