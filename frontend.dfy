/**
 * The pure helpers of the web front end (frontend/app.js): the file tree
 * built from the workspace listing, the line-break formatting of message
 * text, the HTML test on a file name, and the fold over the server-sent
 * event lines of a chat response. The page itself (DOM, fetch, scrolling)
 * is not modelled; what the stream handler does to it is recorded as a list
 * of actions.
 */
module Frontend {
  import opened Wrappers
  import opened Strings
  import opened Json

  // ---------------------------------------------------------------------
  // The file tree (`buildFileTree`)

  /** `file.split(/[\\/]/)` splits on either slash. */
  const PATH_SEPARATORS: set<char> := {'/', '\\'}

  /** A tree node: its segment, its path from the root joined by `/`, and whether it is a file. */
  datatype Node = Node(name: string, path: string, isFile: bool)

  /**
   * The nested `children` objects flattened: the node reached by the
   * segments `key` from the root is `tree[key]`, and its children are the
   * nodes whose keys extend `key` by one segment.
   */
  type Tree = map<seq<string>, Node>

  /** The segments of a path; the node path of the whole file is the file with every `\` written as `/`. */
  function SplitPath(file: string): (parts: seq<string>)
    ensures |parts| >= 1
    ensures Join(parts, "/") == ReplaceSeparators(file, PATH_SEPARATORS, '/')
  {
    JoinSplit(file, PATH_SEPARATORS, '/');
    SplitBy(file, PATH_SEPARATORS)
  }

  /** The node created for `parts[..index + 1]` when the walk reaches it. */
  function NewNode(parts: seq<string>, index: nat): Node
    requires index < |parts|
  {
    Node(parts[index], Join(parts[..index + 1], "/"), index == |parts| - 1)
  }

  /** One step of the inner walk: create the node for `parts[..index + 1]` unless it is there. */
  function AddNode(tree: Tree, parts: seq<string>, index: nat): Tree
    requires index < |parts|
  {
    var key := parts[..index + 1];
    if key in tree then tree else tree[key := NewNode(parts, index)]
  }

  /** The rest of the walk from segment `index` on. */
  function InsertFrom(tree: Tree, parts: seq<string>, index: nat): Tree
    requires index <= |parts|
    decreases |parts| - index
  {
    if index == |parts| then tree else InsertFrom(AddNode(tree, parts, index), parts, index + 1)
  }

  /** The walk for one file's segments. */
  function Insert(tree: Tree, parts: seq<string>): Tree {
    InsertFrom(tree, parts, 0)
  }

  /** The tree after inserting `files` in order into an empty tree. */
  function Build(files: seq<string>): Tree {
    if |files| == 0 then map[]
    else Insert(Build(files[..|files| - 1]), SplitPath(files[|files| - 1]))
  }

  /** `buildFileTree`: an outer loop over the files and an inner loop over each file's segments. */
  method BuildFileTree(files: seq<string>) returns (tree: Tree)
    ensures tree == Build(files)
  {
    tree := map[];
    for f := 0 to |files|
      invariant tree == Build(files[..f])
    {
      var parts := SplitPath(files[f]);
      assert files[..f + 1][..f] == files[..f];
      for index := 0 to |parts|
        invariant InsertFrom(tree, parts, index) == Build(files[..f + 1])
      {
        var key := parts[..index + 1];
        if key !in tree {
          tree := tree[key := Node(parts[index], Join(key, "/"), index == |parts| - 1)];
        }
      }
    }
    assert files[..|files|] == files;
  }

  /** `key` names a node on the walk for `parts`: a non-empty prefix of the segments. */
  predicate IsPrefixOf(key: seq<string>, parts: seq<string>) {
    1 <= |key| <= |parts| && parts[..|key|] == key
  }

  /** The prefixes of `parts` longer than `index` segments. */
  function PrefixesFrom(parts: seq<string>, index: nat): set<seq<string>> {
    set k | index < k <= |parts| :: parts[..k]
  }

  lemma PrefixesFromStep(parts: seq<string>, index: nat)
    requires index < |parts|
    ensures PrefixesFrom(parts, index) == PrefixesFrom(parts, index + 1) + {parts[..index + 1]}
  {
    forall key | key in PrefixesFrom(parts, index) ensures key in PrefixesFrom(parts, index + 1) + {parts[..index + 1]} {
      var k :| index < k <= |parts| && key == parts[..k];
      if k > index + 1 {
        assert key in PrefixesFrom(parts, index + 1);
      }
    }
  }

  lemma {:induction false} InsertFromKeys(tree: Tree, parts: seq<string>, index: nat)
    requires index <= |parts|
    ensures InsertFrom(tree, parts, index).Keys == tree.Keys + PrefixesFrom(parts, index)
    decreases |parts| - index
  {
    if index < |parts| {
      var next := AddNode(tree, parts, index);
      InsertFromKeys(next, parts, index + 1);
      PrefixesFromStep(parts, index);
      assert next.Keys == tree.Keys + {parts[..index + 1]};
    } else {
      assert PrefixesFrom(parts, index) == {};
    }
  }

  lemma {:induction false} InsertFromKeeps(tree: Tree, parts: seq<string>, index: nat)
    requires index <= |parts|
    ensures forall key :: key in tree ==> key in InsertFrom(tree, parts, index) && InsertFrom(tree, parts, index)[key] == tree[key]
    decreases |parts| - index
  {
    if index < |parts| {
      var next := AddNode(tree, parts, index);
      InsertFromKeeps(next, parts, index + 1);
      assert forall key :: key in tree ==> key in next && next[key] == tree[key];
    }
  }

  lemma {:induction false} InsertFromAdds(tree: Tree, parts: seq<string>, index: nat)
    requires index <= |parts|
    ensures forall k :: index < k <= |parts| && parts[..k] !in tree ==>
      parts[..k] in InsertFrom(tree, parts, index) && InsertFrom(tree, parts, index)[parts[..k]] == NewNode(parts, k - 1)
    decreases |parts| - index
  {
    if index < |parts| {
      var next := AddNode(tree, parts, index);
      InsertFromAdds(next, parts, index + 1);
      InsertFromKeeps(next, parts, index + 1);
      forall k | index < k <= |parts| && parts[..k] !in tree
        ensures parts[..k] in InsertFrom(tree, parts, index) && InsertFrom(tree, parts, index)[parts[..k]] == NewNode(parts, k - 1)
      {
        if k == index + 1 {
          assert next[parts[..k]] == NewNode(parts, k - 1);
        } else {
          assert parts[..k] !in next;
        }
      }
    }
  }

  /**
   * The walk from `index` adds exactly the missing prefixes of length
   * greater than `index`, each as `NewNode` makes it, and leaves every
   * existing node as it was.
   */
  lemma InsertFromSpec(tree: Tree, parts: seq<string>, index: nat)
    requires index <= |parts|
    ensures var r := InsertFrom(tree, parts, index);
      && r.Keys == tree.Keys + (set k | index < k <= |parts| :: parts[..k])
      && (forall key :: key in tree ==> r[key] == tree[key])
      && (forall k :: index < k <= |parts| && parts[..k] !in tree ==> r[parts[..k]] == NewNode(parts, k - 1))
  {
    InsertFromKeys(tree, parts, index);
    InsertFromKeeps(tree, parts, index);
    InsertFromAdds(tree, parts, index);
  }

  /** Inserting a file adds the missing prefixes of its segments and overwrites nothing. */
  lemma InsertAddsPrefixes(tree: Tree, parts: seq<string>)
    ensures Insert(tree, parts).Keys == tree.Keys + (set k | 0 < k <= |parts| :: parts[..k])
    ensures forall key :: key in tree ==> Insert(tree, parts)[key] == tree[key]
  {
    InsertFromSpec(tree, parts, 0);
  }

  /** Inserting the same segments again leaves the tree unchanged. */
  lemma InsertIdempotent(tree: Tree, parts: seq<string>)
    ensures Insert(Insert(tree, parts), parts) == Insert(tree, parts)
  {
    var once := Insert(tree, parts);
    InsertFromSpec(tree, parts, 0);
    InsertFromSpec(once, parts, 0);
    var twice := Insert(once, parts);
    assert twice.Keys == once.Keys;
  }

  /** Some listed file's walk reaches `key`. */
  predicate Reached(files: seq<string>, key: seq<string>) {
    exists i :: 0 <= i < |files| && IsPrefixOf(key, SplitPath(files[i]))
  }

  /** The keys reached by the files are those reached by the earlier ones or by the last one. */
  lemma ReachedSnoc(files: seq<string>, key: seq<string>)
    requires |files| > 0
    ensures Reached(files, key) <==> Reached(files[..|files| - 1], key) || IsPrefixOf(key, SplitPath(files[|files| - 1]))
  {
    var front := files[..|files| - 1];
    if Reached(files, key) {
      var i :| 0 <= i < |files| && IsPrefixOf(key, SplitPath(files[i]));
      if i < |front| {
        assert files[i] == front[i];
      }
    }
    if Reached(front, key) {
      var i :| 0 <= i < |front| && IsPrefixOf(key, SplitPath(front[i]));
      assert files[i] == front[i];
    }
  }

  /** The nodes of a built tree are exactly the non-empty segment prefixes of the inserted files. */
  lemma {:induction false} BuildKeys(files: seq<string>)
    ensures forall key :: key in Build(files) <==> Reached(files, key)
  {
    if |files| > 0 {
      var front := files[..|files| - 1];
      var parts := SplitPath(files[|files| - 1]);
      BuildKeys(front);
      InsertAddsPrefixes(Build(front), parts);
      forall key
        ensures key in Build(files) <==> Reached(files, key)
      {
        ReachedSnoc(files, key);
        if IsPrefixOf(key, parts) {
          assert key == parts[..|key|];
        }
      }
    }
  }

  /** After inserting a file, every prefix of its segments is a node: the tree is closed under parents. */
  lemma PathsArePrefixClosed(files: seq<string>, i: nat, k: nat)
    requires i < |files| && 1 <= k <= |SplitPath(files[i])|
    ensures SplitPath(files[i])[..k] in Build(files)
  {
    BuildKeys(files);
    assert IsPrefixOf(SplitPath(files[i])[..k], SplitPath(files[i]));
  }

  /** Each node is named by its last segment and its path is its segments from the root joined by `/`. */
  predicate NodesNamedByKeys(tree: Tree) {
    forall key :: key in tree ==> |key| >= 1 && tree[key].name == key[|key| - 1] && tree[key].path == Join(key, "/")
  }

  lemma {:induction false} BuildNamesNodes(files: seq<string>)
    ensures NodesNamedByKeys(Build(files))
  {
    if |files| > 0 {
      var front := files[..|files| - 1];
      BuildNamesNodes(front);
      InsertKeepsNames(Build(front), SplitPath(files[|files| - 1]));
    }
  }

  /** A walk adds only nodes named by their keys. */
  lemma InsertKeepsNames(tree: Tree, parts: seq<string>)
    requires NodesNamedByKeys(tree)
    ensures NodesNamedByKeys(Insert(tree, parts))
  {
    var r := Insert(tree, parts);
    InsertFromKeys(tree, parts, 0);
    InsertFromKeeps(tree, parts, 0);
    InsertFromAdds(tree, parts, 0);
    forall key | key in r
      ensures |key| >= 1 && r[key].name == key[|key| - 1] && r[key].path == Join(key, "/")
    {
      if key !in tree {
        assert key in PrefixesFrom(parts, 0);
        var k :| 0 < k <= |parts| && key == parts[..k];
        NewNodeNamed(parts, k);
      }
    }
  }

  /** The node made for the first `k` segments is named by them. */
  lemma NewNodeNamed(parts: seq<string>, k: nat)
    requires 0 < k <= |parts|
    ensures var key := parts[..k];
      NewNode(parts, k - 1).name == key[|key| - 1] && NewNode(parts, k - 1).path == Join(key, "/")
  {
  }

  /** A walk whose every prefix is already a node changes nothing. */
  lemma {:induction false} InsertFromPresent(tree: Tree, parts: seq<string>, index: nat)
    requires index <= |parts|
    requires forall k :: index < k <= |parts| ==> parts[..k] in tree
    ensures InsertFrom(tree, parts, index) == tree
    decreases |parts| - index
  {
    if index < |parts| {
      assert parts[..index + 1] in tree;
      InsertFromPresent(tree, parts, index + 1);
    }
  }

  /** Adding a file that is already listed changes nothing. */
  lemma RepeatedFileChangesNothing(files: seq<string>, file: string)
    requires file in files
    ensures Build(files + [file]) == Build(files)
  {
    var parts := SplitPath(file);
    assert (files + [file])[..|files|] == files;
    assert Build(files + [file]) == InsertFrom(Build(files), parts, 0);
    BuildKeys(files);
    var i :| 0 <= i < |files| && files[i] == file;
    forall k | 0 < k <= |parts| ensures parts[..k] in Build(files) {
      assert IsPrefixOf(parts[..k], SplitPath(files[i]));
    }
    InsertFromPresent(Build(files), parts, 0);
  }

  /** File `c` is the first listed file whose walk reaches `key`. */
  predicate FirstWalkAt(files: seq<string>, key: seq<string>, c: int) {
    && 0 <= c < |files| && IsPrefixOf(key, SplitPath(files[c]))
    && (forall d :: 0 <= d < c ==> !IsPrefixOf(key, SplitPath(files[d])))
  }

  /** A first walk among the earlier files is still the first once a file is appended. */
  lemma FirstWalkKept(files: seq<string>, key: seq<string>, c: int)
    requires |files| > 0 && FirstWalkAt(files[..|files| - 1], key, c)
    ensures FirstWalkAt(files, key, c) && files[c] == files[..|files| - 1][c]
  {
    var front := files[..|files| - 1];
    assert forall d :: 0 <= d <= c ==> files[d] == front[d];
  }

  /** A key the earlier files do not reach is first reached by the appended file when it reaches it. */
  lemma FirstWalkIsLast(files: seq<string>, key: seq<string>)
    requires |files| > 0 && key !in Build(files[..|files| - 1])
    requires IsPrefixOf(key, SplitPath(files[|files| - 1]))
    ensures FirstWalkAt(files, key, |files| - 1)
  {
    var front := files[..|files| - 1];
    BuildKeys(front);
    forall d | 0 <= d < |files| - 1 ensures !IsPrefixOf(key, SplitPath(files[d])) {
      assert files[d] == front[d];
    }
  }

  /**
   * A node is a file exactly when the first listed file whose walk reaches
   * it ends there: later files never change the flag.
   */
  lemma {:induction false} IsFileSetByFirstWalk(files: seq<string>, key: seq<string>)
    requires key in Build(files)
    ensures exists c :: FirstWalkAt(files, key, c) && (Build(files)[key].isFile <==> |key| == |SplitPath(files[c])|)
  {
    var front := files[..|files| - 1];
    var parts := SplitPath(files[|files| - 1]);
    assert Build(files) == InsertFrom(Build(front), parts, 0);
    if key in Build(front) {
      InsertAddsPrefixes(Build(front), parts);
      assert Build(files)[key] == Build(front)[key];
      IsFileSetByFirstWalk(front, key);
      var c :| FirstWalkAt(front, key, c) && (Build(front)[key].isFile <==> |key| == |SplitPath(front[c])|);
      FirstWalkKept(files, key, c);
    } else {
      InsertFromSpec(Build(front), parts, 0);
      var k :| 0 < k <= |parts| && key == parts[..k];
      assert Build(files)[key] == NewNode(parts, k - 1);
      FirstWalkIsLast(files, key);
    }
  }

  // ---------------------------------------------------------------------
  // Inherited property names in `buildFileTree`

  /**
   * The properties every plain JavaScript object inherits from
   * `Object.prototype`: `current[part]` finds them on a fresh `{}`, so
   * `!current[part]` is false although no node was stored.
   */
  const INHERITED_NAMES: set<string> := {
    "constructor", "__proto__", "hasOwnProperty", "isPrototypeOf", "propertyIsEnumerable",
    "toLocaleString", "toString", "valueOf",
    "__defineGetter__", "__defineSetter__", "__lookupGetter__", "__lookupSetter__"}

  /**
   * The walk as written: a missing segment with an inherited name is not
   * created, and `current` becomes `undefined`, so a following segment
   * throws a `TypeError` (`None`) and a last one is silently dropped.
   */
  function InsertFromAsWritten(tree: Tree, parts: seq<string>, index: nat): Option<Tree>
    requires index <= |parts|
    decreases |parts| - index
  {
    if index == |parts| then Some(tree)
    else if parts[..index + 1] !in tree && parts[index] in INHERITED_NAMES then
      if index == |parts| - 1 then Some(tree) else None
    else InsertFromAsWritten(AddNode(tree, parts, index), parts, index + 1)
  }

  /** `buildFileTree` as written; `None` is the `TypeError` that aborts it. */
  function BuildAsWritten(files: seq<string>): Option<Tree> {
    if |files| == 0 then Some(map[])
    else match BuildAsWritten(files[..|files| - 1])
      case None => None
      case Some(tree) => InsertFromAsWritten(tree, SplitPath(files[|files| - 1]), 0)
  }

  lemma {:induction false} InsertFromAsWrittenAgrees(tree: Tree, parts: seq<string>, index: nat)
    requires index <= |parts|
    requires forall j :: index <= j < |parts| ==> parts[j] !in INHERITED_NAMES
    ensures InsertFromAsWritten(tree, parts, index) == Some(InsertFrom(tree, parts, index))
    decreases |parts| - index
  {
    if index < |parts| {
      InsertFromAsWrittenAgrees(AddNode(tree, parts, index), parts, index + 1);
    }
  }

  /** Without inherited names among the segments, the code as written builds the intended tree. */
  lemma {:induction false} AsWrittenAgreesWithoutInheritedNames(files: seq<string>)
    requires forall i, j :: 0 <= i < |files| && 0 <= j < |SplitPath(files[i])| ==> SplitPath(files[i])[j] !in INHERITED_NAMES
    ensures BuildAsWritten(files) == Some(Build(files))
  {
    if |files| > 0 {
      var front := files[..|files| - 1];
      assert forall i :: 0 <= i < |front| ==> front[i] == files[i];
      AsWrittenAgreesWithoutInheritedNames(front);
      InsertFromAsWrittenAgrees(Build(front), SplitPath(files[|files| - 1]), 0);
    }
  }

  /** A file whose name is inherited, at the top level, never appears in the tree as written, though the intended tree holds it. */
  lemma InheritedFileNameIsDropped(name: string)
    requires HasNoSeparator(name, PATH_SEPARATORS)
    requires name in INHERITED_NAMES
    ensures BuildAsWritten([name]) == Some(map[])
    ensures Build([name]) == map[[name] := Node(name, name, true)]
  {
    SplitWithoutSeparator(name, PATH_SEPARATORS);
    var parts := [name];
    assert [name][..0] == [];
    assert parts[..1] == parts;
    assert Join(parts, "/") == name;
    assert Build([name]) == InsertFrom(map[], parts, 0);
    assert InsertFrom(map[], parts, 0) == InsertFrom(AddNode(map[], parts, 0), parts, 1);
    assert AddNode(map[], parts, 0) == map[parts := Node(name, name, true)];
  }

  /** A file inside a top-level folder whose name is inherited makes the code as written throw. */
  lemma InheritedFolderNameThrows(folder: string, file: string)
    requires HasNoSeparator(folder, PATH_SEPARATORS)
    requires HasNoSeparator(file, PATH_SEPARATORS)
    requires folder in INHERITED_NAMES
    ensures BuildAsWritten([folder + "/" + file]) == None
  {
    SplitWithoutSeparator(file, PATH_SEPARATORS);
    SplitAtSeparator(folder, '/', file, PATH_SEPARATORS);
    var parts := [folder, file];
    assert [folder + "/" + file][..0] == [];
    assert SplitPath(folder + "/" + file) == parts;
    assert parts[..1] == [folder];
  }

  /** The file `constructor` is dropped. */
  lemma ConstructorFileIsDropped()
    ensures BuildAsWritten(["constructor"]) == Some(map[])
    ensures ["constructor"] in Build(["constructor"])
  {
    InheritedFileNameIsDropped("constructor");
  }

  /** The file `toString/a.txt` makes the code as written throw. */
  lemma ToStringFolderThrows()
    ensures BuildAsWritten(["toString/a.txt"]) == None
  {
    assert "toString/a.txt" == "toString" + "/" + "a.txt";
    InheritedFolderNameThrows("toString", "a.txt");
  }

  // ---------------------------------------------------------------------
  // Line breaks (`formatContentWithLineBreaks`)

  /** `content.replace(/\n\n/g, '<br><br>').replace(/\n/g, '<br>')`. */
  function FormatContentWithLineBreaks(content: string): string {
    ReplaceAll(ReplaceAll(content, "\n\n", "<br><br>"), "\n", "<br>")
  }

  /** One character of `BreakLines`: a newline becomes `<br>`, anything else stays. */
  function BreakChar(c: char): (r: string)
    ensures forall i :: 0 <= i < |r| ==> r[i] != '\n'
  {
    if c == '\n' then "<br>" else [c]
  }

  /** Every newline written as `<br>` and every other character kept: no newline is left. */
  function BreakLines(s: string): (r: string)
    ensures forall i :: 0 <= i < |r| ==> r[i] != '\n'
  {
    if |s| == 0 then "" else BreakChar(s[0]) + BreakLines(s[1..])
  }

  lemma {:induction false} BreakLinesAppend(a: string, b: string)
    ensures BreakLines(a + b) == BreakLines(a) + BreakLines(b)
  {
    if |a| > 0 {
      BreakLinesAppend(a[1..], b);
      assert (a + b)[0] == a[0];
      assert (a + b)[1..] == a[1..] + b;
      var piece := BreakChar(a[0]);
      assert BreakLines(a + b) == piece + (BreakLines(a[1..]) + BreakLines(b));
      assert BreakLines(a) == piece + BreakLines(a[1..]);
    } else {
      assert a + b == b;
    }
  }

  lemma {:induction false} BreakLinesKeepsText(s: string)
    requires forall i :: 0 <= i < |s| ==> s[i] != '\n'
    ensures BreakLines(s) == s
  {
    if |s| > 0 {
      BreakLinesKeepsText(s[1..]);
      assert s == [s[0]] + s[1..];
    }
  }

  /** Replacing single newlines is `BreakLines`. */
  lemma {:induction false} ReplaceNewlines(s: string)
    ensures ReplaceAll(s, "\n", "<br>") == BreakLines(s)
  {
    if |s| > 0 {
      ReplaceNewlines(s[1..]);
      assert s[..1] == [s[0]];
    }
  }

  /** A newline pair becomes two breaks. */
  lemma BreakLinesOfPair(rest: string)
    ensures BreakLines("\n\n" + rest) == "<br><br>" + BreakLines(rest)
  {
    var s := "\n\n" + rest;
    assert s[1..] == "\n" + rest;
    assert s[1..][1..] == rest;
    assert "<br>" + "<br>" == "<br><br>";
  }

  /** The break tags hold no newline, so `BreakLines` keeps them. */
  lemma BreakLinesOfTags()
    ensures BreakLines("<br><br>") == "<br><br>"
  {
    var tags := "<br><br>";
    assert forall i :: 0 <= i < |tags| ==> tags[i] != '\n';
    BreakLinesKeepsText(tags);
  }

  /** Replacing newline pairs first does not change where the breaks end up. */
  lemma {:induction false} PairsKeepBreakLines(s: string)
    ensures BreakLines(ReplaceAll(s, "\n\n", "<br><br>")) == BreakLines(s)
    decreases |s|
  {
    if |s| < 2 {
    } else if s[..2] == "\n\n" {
      PairsKeepBreakLines(s[2..]);
      PairStep(s);
    } else {
      PairsKeepBreakLines(s[1..]);
      NonPairStep(s);
    }
  }

  /** A leading pair written as `<br><br>` breaks the lines as the pair itself does. */
  lemma PairStep(s: string)
    requires |s| >= 2 && s[..2] == "\n\n"
    requires BreakLines(ReplaceAll(s[2..], "\n\n", "<br><br>")) == BreakLines(s[2..])
    ensures BreakLines(ReplaceAll(s, "\n\n", "<br><br>")) == BreakLines(s)
  {
    ReplacePairHead(s);
    BreakLinesAfterTags(ReplaceAll(s[2..], "\n\n", "<br><br>"));
    BreakLinesOfPairHead(s);
  }

  lemma ReplacePairHead(s: string)
    requires |s| >= 2 && s[..2] == "\n\n"
    ensures ReplaceAll(s, "\n\n", "<br><br>") == "<br><br>" + ReplaceAll(s[2..], "\n\n", "<br><br>")
  {
  }

  lemma BreakLinesAfterTags(rest: string)
    ensures BreakLines("<br><br>" + rest) == "<br><br>" + BreakLines(rest)
  {
    BreakLinesAppend("<br><br>", rest);
    BreakLinesOfTags();
  }

  lemma BreakLinesOfPairHead(s: string)
    requires |s| >= 2 && s[..2] == "\n\n"
    ensures BreakLines(s) == "<br><br>" + BreakLines(s[2..])
  {
    assert s == "\n\n" + s[2..];
    BreakLinesOfPair(s[2..]);
  }

  lemma NonPairStep(s: string)
    requires |s| >= 2 && s[..2] != "\n\n"
    requires BreakLines(ReplaceAll(s[1..], "\n\n", "<br><br>")) == BreakLines(s[1..])
    ensures BreakLines(ReplaceAll(s, "\n\n", "<br><br>")) == BreakLines(s)
  {
    var replaced := ReplaceAll(s[1..], "\n\n", "<br><br>");
    assert ReplaceAll(s, "\n\n", "<br><br>") == [s[0]] + replaced;
    BreakLinesCons(s[0], replaced);
  }

  lemma BreakLinesCons(c: char, rest: string)
    ensures BreakLines([c] + rest) == BreakChar(c) + BreakLines(rest)
  {
    var s := [c] + rest;
    assert s[0] == c && s[1..] == rest;
  }

  /**
   * The two replacements together write every newline as `<br>`, whether
   * or not it belongs to a pair, and leave no newline in the text.
   */
  lemma LineBreaksReplaceEveryNewline(content: string)
    ensures FormatContentWithLineBreaks(content) == BreakLines(content)
    ensures forall i :: 0 <= i < |FormatContentWithLineBreaks(content)| ==> FormatContentWithLineBreaks(content)[i] != '\n'
  {
    ReplaceNewlines(ReplaceAll(content, "\n\n", "<br><br>"));
    PairsKeepBreakLines(content);
  }

  // ---------------------------------------------------------------------
  // The HTML test in `openFile`

  /** `filename.toLowerCase().split('.').pop()`: the lower-cased text after the last dot, or all of it. */
  function Extension(filename: string): string {
    LastPart(Lower(filename), {'.'})
  }

  predicate IsHtmlFile(filename: string) {
    Extension(filename) == "html" || Extension(filename) == "htm"
  }

  /** The last part of a split on `.` is a dot-free `ext` exactly when the text is `ext` or ends with `.ext`. */
  lemma ExtensionIs(s: string, ext: string)
    requires forall i :: 0 <= i < |ext| ==> ext[i] != '.'
    ensures LastPart(s, {'.'}) == ext <==> EndsWith(s, "." + ext) || s == ext
  {
    var last := LastPart(s, {'.'});
    LastPartIsTextAfterLast(s, {'.'});
    if last == ext {
      AfterDotIsExtension(s, ext);
    }
    if s == ext {
      DotFreeTextIsLastPart(s, last);
    } else if EndsWith(s, "." + ext) {
      ExtensionAfterDot(s, last, ext);
    }
  }

  /** Text after a dot, or the whole text, is what follows `.` or is all of it. */
  lemma AfterDotIsExtension(s: string, ext: string)
    requires AfterSeparator(s, ext, {'.'})
    ensures EndsWith(s, "." + ext) || s == ext
  {
    var n := |ext|;
    if n < |s| {
      assert s[|s| - n - 1..] == [s[|s| - n - 1]] + s[|s| - n..];
    } else {
      assert s == s[|s| - n..];
    }
  }

  /** A dot-free text is its own last part. */
  lemma DotFreeTextIsLastPart(s: string, last: string)
    requires HasNoSeparator(s, {'.'})
    requires AfterSeparator(s, last, {'.'})
    ensures last == s
  {
    assert |last| == |s|;
    assert s[|s| - |last|..] == s;
  }

  /** In a text ending with `.ext`, the dot-free text after the last dot is `ext`. */
  lemma ExtensionAfterDot(s: string, last: string, ext: string)
    requires forall i :: 0 <= i < |ext| ==> ext[i] != '.'
    requires HasNoSeparator(last, {'.'})
    requires AfterSeparator(s, last, {'.'})
    requires EndsWith(s, "." + ext)
    ensures last == ext
  {
    var n := |ext|;
    assert s[|s| - n - 1] == '.';
    assert forall j :: |s| - n <= j < |s| ==> s[j] == ext[j - (|s| - n)];
    assert forall j :: |s| - |last| <= j < |s| ==> s[j] == last[j - (|s| - |last|)];
    assert |last| == n;
    assert last == s[|s| - n..];
  }

  /**
   * A file is shown as HTML exactly when its lower-cased name ends with
   * `.html` or `.htm`, or is `html` or `htm` itself (a name without a dot is
   * its own extension).
   */
  lemma IsHtmlFileIff(filename: string)
    ensures IsHtmlFile(filename) <==>
      var lower := Lower(filename);
      EndsWith(lower, ".html") || EndsWith(lower, ".htm") || lower == "html" || lower == "htm"
  {
    var lower := Lower(filename);
    ExtensionIs(lower, "html");
    ExtensionIs(lower, "htm");
    assert "." + "html" == ".html";
    assert "." + "htm" == ".htm";
  }

  // ---------------------------------------------------------------------
  // The stream handler (`handleStreamResponse`)

  const DATA_PREFIX := "data: "
  const DONE_PAYLOAD := "[DONE]"
  const RECEIVE_ERROR_MESSAGE := "抱歉，接收响应时出现错误。"
  const TOOL_CALL_DEFAULT := "🔧 调用工具..."
  const TOOL_RESULT_DEFAULT := "✅ 工具执行完成"
  const ANSWER_DEFAULT := "任务完成"

  /** What the handler does to the page, in order. */
  datatype PageAction =
    | AddMessage(text: string, thinking: bool)     // `addMessage('assistant', text, thinking)`
    | UpdateMessage(text: string, typing: bool)    // `updateMessage(id, text, typing)`
    | EndThinking(text: string)                    // `updateMessage(id, text, false)` and the `thinking` class removed
    | AddToolMessage(kind: string, text: string)   // `addToolMessage(kind, text)`
    | PrepareToolContainer                         // the part of `addToolMessage` before the text is formatted
    | MarkToolContainerCompleted                   // `markToolContainerCompleted()`
    | EnableInput                                  // the input box and the send button enabled again

  /**
   * The handler's locals: whether `assistantMessageId` is set, `currentContent`,
   * what it has done to the page, and whether it has returned.
   */
  datatype Handler = Handler(messageOpen: bool, content: string, actions: seq<PageAction>, returned: bool)

  const START := Handler(false, "", [], false)

  /** The response body: the decoded chunks in order, and whether a read fails after the last one. */
  datatype Body = Body(chunks: seq<string>, fails: bool)

  /** `parsed.content || fallback` as text, as `+` and the template strings turn it into one. */
  function TextOr(o: Option<Value>, fallback: string): string {
    if o.Some? && JsTruthy(o.value) then JsString(o.value) else fallback
  }

  predicate Truthy(o: Option<Value>) {
    o.Some? && JsTruthy(o.value)
  }

  /**
   * `parsed.content || fallback` is a string, as `formatContentWithLineBreaks`
   * needs: its `replace` throws a `TypeError` on a number, a boolean, an
   * array or an object, and the inner catch only logs it.
   */
  predicate IsText(o: Option<Value>) {
    !Truthy(o) || o.value.Str?
  }

  /** `if (!assistantMessageId)` before a thinking event: a thinking message, and the text starts over. */
  function OpenThinking(h: Handler): Handler {
    if h.messageOpen then h else h.(messageOpen := true, content := "", actions := h.actions + [AddMessage("", true)])
  }

  /** `if (!assistantMessageId)` before a response event: a plain message; the text is kept. */
  function OpenResponse(h: Handler): Handler {
    if h.messageOpen then h else h.(messageOpen := true, actions := h.actions + [AddMessage("", false)])
  }

  /**
   * The branches on `parsed.type`, for an event that is neither a heartbeat
   * nor an error. A tool event whose content is not text gets as far as
   * finding or making the tool container; a final answer whose content is
   * not text throws inside `addMessage`, before anything is shown, so the
   * handler neither enables the input nor returns.
   */
  function HandleEvent(h: Handler, event: Value): Handler
    requires !event.Null?
  {
    var kind := JsProperty(event, "type");
    var text := JsProperty(event, "content");
    if kind == Some(Str("thinking_start")) then OpenThinking(h)
    else if kind == Some(Str("thinking_stream")) then
      var shown := OpenThinking(h);
      var content := shown.content + TextOr(text, "");
      shown.(content := content, actions := shown.actions + [UpdateMessage(content, true)])
    else if kind == Some(Str("thinking_complete")) then
      if h.messageOpen && h.content != "" then h.(actions := h.actions + [EndThinking(h.content)]) else h
    else if kind == Some(Str("response")) then
      var shown := OpenResponse(h);
      var content := shown.content + TextOr(text, "");
      shown.(content := content, actions := shown.actions + [UpdateMessage(content, false)])
    else if kind == Some(Str("tool_call")) then
      if IsText(text) then h.(actions := h.actions + [AddToolMessage("tool_call", TextOr(text, TOOL_CALL_DEFAULT))])
      else h.(actions := h.actions + [PrepareToolContainer])
    else if kind == Some(Str("tool_result")) then
      if IsText(text) then h.(actions := h.actions + [AddToolMessage("tool_result", TextOr(text, TOOL_RESULT_DEFAULT))])
      else h.(actions := h.actions + [PrepareToolContainer])
    else if kind == Some(Str("final_answer")) then
      if IsText(text) then
        h.(actions := h.actions + [AddMessage(TextOr(text, ANSWER_DEFAULT), false), MarkToolContainerCompleted, EnableInput], returned := true)
      else h
    else if kind == Some(Str("done")) then
      h.(actions := h.actions + [EnableInput, MarkToolContainerCompleted], returned := true)
    else h
  }

  /**
   * One line of a chunk. `parse` is `JSON.parse`, `None` when it throws;
   * reading a property of a parsed `null` throws too, and the inner catch
   * only logs both.
   */
  function HandleLine(h: Handler, line: string, parse: string -> Option<Value>): Handler {
    if !StartsWith(line, DATA_PREFIX) then h
    else
      var data := line[|DATA_PREFIX|..];
      if data == DONE_PAYLOAD then h.(returned := true)
      else match parse(data)
        case None => h
        case Some(event) =>
          if event.Null? then h
          else if Truthy(JsProperty(event, "heartbeat")) then h
          else if Truthy(JsProperty(event, "error")) then
            h.(actions := h.actions + [AddMessage("错误: " + JsString(JsProperty(event, "error").value), false)], returned := true)
          else HandleEvent(h, event)
  }

  /** The lines in order, until the handler returns. */
  function Fold(h: Handler, lines: seq<string>, parse: string -> Option<Value>): Handler
    decreases |lines|
  {
    if h.returned || |lines| == 0 then h else Fold(HandleLine(h, lines[0], parse), lines[1..], parse)
  }

  /** The lines the handler sees: each chunk split on `\n` by itself. */
  function Lines(chunks: seq<string>): seq<string> {
    if |chunks| == 0 then [] else Lines(chunks[..|chunks| - 1]) + SplitBy(chunks[|chunks| - 1], {'\n'})
  }

  /** The whole handler: the lines of every chunk, then the outer catch when a read fails. */
  function HandleStream(body: Body, parse: string -> Option<Value>): Handler {
    var h := Fold(START, Lines(body.chunks), parse);
    if !h.returned && body.fails && !h.messageOpen then h.(actions := h.actions + [AddMessage(RECEIVE_ERROR_MESSAGE, false)])
    else h
  }

  lemma {:induction false} FoldAppend(h: Handler, a: seq<string>, b: seq<string>, parse: string -> Option<Value>)
    ensures Fold(h, a + b, parse) == Fold(Fold(h, a, parse), b, parse)
    decreases |a|
  {
    if !h.returned && |a| > 0 {
      assert (a + b)[0] == a[0];
      assert (a + b)[1..] == a[1..] + b;
      FoldAppend(HandleLine(h, a[0], parse), a[1..], b, parse);
    } else if |a| == 0 {
      assert a + b == b;
    }
  }

  /** Once a prefix of the chunks has made the handler return, the rest of the body changes nothing. */
  lemma ReturnedPrefixIsFinal(body: Body, c: nat, parse: string -> Option<Value>)
    requires c < |body.chunks|
    requires Fold(START, Lines(body.chunks[..c + 1]), parse).returned
    ensures HandleStream(body, parse) == Fold(START, Lines(body.chunks[..c + 1]), parse)
  {
    LinesAppend(body.chunks[..c + 1], body.chunks[c + 1..]);
    assert body.chunks[..c + 1] + body.chunks[c + 1..] == body.chunks;
    FoldAppend(START, Lines(body.chunks[..c + 1]), Lines(body.chunks[c + 1..]), parse);
  }

  lemma {:induction false} LinesAppend(a: seq<string>, b: seq<string>)
    ensures Lines(a + b) == Lines(a) + Lines(b)
    decreases |b|
  {
    if |b| == 0 {
      assert a + b == a;
    } else {
      var front := b[..|b| - 1];
      var last := SplitBy(b[|b| - 1], {'\n'});
      LinesAppend(a, front);
      assert (a + b)[..|a + b| - 1] == a + front;
      assert (a + b)[|a + b| - 1] == b[|b| - 1];
      assert Lines(a + b) == Lines(a + front) + last;
      assert Lines(b) == Lines(front) + last;
      assert Lines(a + front) + last == Lines(a) + (Lines(front) + last);
    }
  }

  /** The body of the loop over a chunk's lines: skip, stop at `[DONE]`, report an error, or handle the event. */
  method ProcessLine(messageOpen: bool, content: string, actions: seq<PageAction>, line: string, parse: string -> Option<Value>)
    returns (messageOpen': bool, content': string, actions': seq<PageAction>, returned: bool)
    ensures Handler(messageOpen', content', actions', returned) == HandleLine(Handler(messageOpen, content, actions, false), line, parse)
  {
    messageOpen', content', actions', returned := messageOpen, content, actions, false;
    if StartsWith(line, DATA_PREFIX) {
      var data := line[|DATA_PREFIX|..];
      if data == DONE_PAYLOAD {
        returned := true;
      } else {
        var parsed := parse(data);
        if parsed.Some? && !parsed.value.Null? {
          var event := parsed.value;
          if Truthy(JsProperty(event, "heartbeat")) {
          } else if Truthy(JsProperty(event, "error")) {
            actions' := actions + [AddMessage("错误: " + JsString(JsProperty(event, "error").value), false)];
            returned := true;
          } else {
            messageOpen', content', actions', returned := DispatchEvent(messageOpen, content, actions, event);
          }
        }
      }
    }
  }

  /** The branches on `parsed.type`. */
  method DispatchEvent(messageOpen: bool, content: string, actions: seq<PageAction>, event: Value)
    returns (messageOpen': bool, content': string, actions': seq<PageAction>, returned: bool)
    requires !event.Null?
    ensures Handler(messageOpen', content', actions', returned) == HandleEvent(Handler(messageOpen, content, actions, false), event)
  {
    messageOpen', content', actions', returned := messageOpen, content, actions, false;
    var kind := JsProperty(event, "type");
    var text := JsProperty(event, "content");
    if kind == Some(Str("thinking_start")) {
      if !messageOpen {
        messageOpen', content' := true, "";
        actions' := actions' + [AddMessage("", true)];
      }
    } else if kind == Some(Str("thinking_stream")) {
      if !messageOpen {
        messageOpen', content' := true, "";
        actions' := actions' + [AddMessage("", true)];
      }
      content' := content' + TextOr(text, "");
      actions' := actions' + [UpdateMessage(content', true)];
    } else if kind == Some(Str("thinking_complete")) {
      if messageOpen && content != "" {
        actions' := actions' + [EndThinking(content)];
      }
    } else if kind == Some(Str("response")) {
      if !messageOpen {
        messageOpen' := true;
        actions' := actions' + [AddMessage("", false)];
      }
      content' := content' + TextOr(text, "");
      actions' := actions' + [UpdateMessage(content', false)];
    } else if kind == Some(Str("tool_call")) {
      if IsText(text) {
        actions' := actions' + [AddToolMessage("tool_call", TextOr(text, TOOL_CALL_DEFAULT))];
      } else {
        actions' := actions' + [PrepareToolContainer];
      }
    } else if kind == Some(Str("tool_result")) {
      if IsText(text) {
        actions' := actions' + [AddToolMessage("tool_result", TextOr(text, TOOL_RESULT_DEFAULT))];
      } else {
        actions' := actions' + [PrepareToolContainer];
      }
    } else if kind == Some(Str("final_answer")) {
      if IsText(text) {
        actions' := actions' + [AddMessage(TextOr(text, ANSWER_DEFAULT), false), MarkToolContainerCompleted, EnableInput];
        returned := true;
      }
    } else if kind == Some(Str("done")) {
      actions' := actions' + [EnableInput, MarkToolContainerCompleted];
      returned := true;
    }
  }

  /**
   * `handleStreamResponse`: the read loop over the chunks, the loop over
   * each chunk's lines, and the outer catch.
   */
  method HandleStreamResponse(body: Body, parse: string -> Option<Value>) returns (h: Handler)
    ensures h == HandleStream(body, parse)
  {
    var messageOpen := false;
    var content := "";
    var actions: seq<PageAction> := [];
    for c := 0 to |body.chunks|
      invariant Fold(START, Lines(body.chunks[..c]), parse) == Handler(messageOpen, content, actions, false)
    {
      var lines := SplitBy(body.chunks[c], {'\n'});
      assert body.chunks[..c + 1][..c] == body.chunks[..c];
      FoldAppend(START, Lines(body.chunks[..c]), lines, parse);
      for j := 0 to |lines|
        invariant Fold(START, Lines(body.chunks[..c + 1]), parse) == Fold(Handler(messageOpen, content, actions, false), lines[j..], parse)
      {
        var line := lines[j];
        var returned;
        messageOpen, content, actions, returned := ProcessLine(messageOpen, content, actions, line, parse);
        assert lines[j..][1..] == lines[j + 1..];
        if returned {
          h := Handler(messageOpen, content, actions, true);
          ReturnedPrefixIsFinal(body, c, parse);
          return;
        }
      }
      assert lines[|lines|..] == [];
    }
    assert body.chunks[..|body.chunks|] == body.chunks;
    h := Handler(messageOpen, content, actions, false);
    if body.fails && !messageOpen {
      h := h.(actions := actions + [AddMessage(RECEIVE_ERROR_MESSAGE, false)]);
    }
  }

  // ---------------------------------------------------------------------
  // What the stream handler promises

  /** The text after `data: `. */
  function Payload(line: string): string
    requires StartsWith(line, DATA_PREFIX)
  {
    line[|DATA_PREFIX|..]
  }

  /** The event a `data: ` line carries, when `JSON.parse` gives something other than `null`. */
  function EventOf(line: string, parse: string -> Option<Value>): Option<Value> {
    if !StartsWith(line, DATA_PREFIX) || Payload(line) == DONE_PAYLOAD then None
    else match parse(Payload(line))
      case None => None
      case Some(event) => if event.Null? || Truthy(JsProperty(event, "heartbeat")) then None else Some(event)
  }

  /** The event is a final answer with text content or the end of the conversation, and is not an error. */
  predicate Concludes(event: Value)
    requires !event.Null?
  {
    !Truthy(JsProperty(event, "error")) && ConcludingKind(event)
  }

  /** A line that ends the handler: `[DONE]`, an error, a final answer with text content, or the end of the conversation. */
  predicate IsTerminal(line: string, parse: string -> Option<Value>) {
    || (StartsWith(line, DATA_PREFIX) && Payload(line) == DONE_PAYLOAD)
    || (EventOf(line, parse).Some? && (Truthy(JsProperty(EventOf(line, parse).value, "error")) || Concludes(EventOf(line, parse).value)))
  }

  /** The text a line adds to the assistant message: the content of a thinking or response event. */
  function Contribution(line: string, parse: string -> Option<Value>): string {
    match EventOf(line, parse)
    case None => ""
    case Some(event) =>
      if Truthy(JsProperty(event, "error")) then "" else EventText(event)
  }

  /** The text of the lines before the first terminal one. */
  function Streamed(lines: seq<string>, parse: string -> Option<Value>): string {
    if |lines| == 0 || IsTerminal(lines[0], parse) then "" else Contribution(lines[0], parse) + Streamed(lines[1..], parse)
  }

  /** The first terminal line is a final answer with text content or the end of the conversation. */
  predicate InputReenabled(lines: seq<string>, parse: string -> Option<Value>) {
    && |lines| > 0
    && if IsTerminal(lines[0], parse) then EventOf(lines[0], parse).Some? && Concludes(EventOf(lines[0], parse).value)
       else InputReenabled(lines[1..], parse)
  }

  /** The lines that start with `data: `. */
  function DataLines(lines: seq<string>): (r: seq<string>)
    ensures forall i :: 0 <= i < |r| ==> StartsWith(r[i], DATA_PREFIX)
  {
    if |lines| == 0 then []
    else (if StartsWith(lines[0], DATA_PREFIX) then [lines[0]] else []) + DataLines(lines[1..])
  }

  /** `r` keeps every action of `h` and may add more after them. */
  predicate Extends(h: Handler, r: Handler) {
    |h.actions| <= |r.actions| && r.actions[..|h.actions|] == h.actions
  }

  /** `r` extends `h` by exactly `extra`. */
  lemma AddsExactly(h: Handler, r: Handler, extra: seq<PageAction>)
    requires r.actions == h.actions + extra
    ensures Extends(h, r) && r.actions[|h.actions|..] == extra
  {
  }

  /** The event is a final answer with text content, or the end of the conversation. */
  predicate ConcludingKind(event: Value)
    requires !event.Null?
  {
    || (JsProperty(event, "type") == Some(Str("final_answer")) && IsText(JsProperty(event, "content")))
    || JsProperty(event, "type") == Some(Str("done"))
  }

  /** Opening a message adds nothing or the new message, never `EnableInput`. */
  lemma OpeningAdds(h: Handler)
    ensures Extends(h, OpenThinking(h)) && EnableInput !in OpenThinking(h).actions[|h.actions|..]
    ensures Extends(h, OpenResponse(h)) && EnableInput !in OpenResponse(h).actions[|h.actions|..]
  {
    if !h.messageOpen {
      AddsExactly(h, OpenThinking(h), [AddMessage("", true)]);
      AddsExactly(h, OpenResponse(h), [AddMessage("", false)]);
    }
  }

  /** Streamed text after opening a message adds one update after what opening added. */
  lemma StreamingAdds(h: Handler, shown: Handler, r: Handler, update: PageAction)
    requires Extends(h, shown) && EnableInput !in shown.actions[|h.actions|..]
    requires r.actions == shown.actions + [update] && update != EnableInput
    ensures Extends(h, r) && EnableInput !in r.actions[|h.actions|..]
  {
    assert r.actions[|h.actions|..] == shown.actions[|h.actions|..] + [update];
  }

  /** What one event adds to the page: `EnableInput` only for a final answer with text content or a `done` event. */
  lemma HandleEventAdds(h: Handler, event: Value)
    requires !event.Null?
    ensures var r := HandleEvent(h, event);
      && Extends(h, r)
      && (EnableInput in r.actions[|h.actions|..] <==> ConcludingKind(event))
  {
    var r := HandleEvent(h, event);
    var kind := JsProperty(event, "type");
    var text := JsProperty(event, "content");
    OpeningAdds(h);
    if kind == Some(Str("thinking_start")) {
    } else if kind == Some(Str("thinking_stream")) {
      StreamingAdds(h, OpenThinking(h), r, UpdateMessage(r.content, true));
    } else if kind == Some(Str("thinking_complete")) {
      if h.messageOpen && h.content != "" {
        AddsExactly(h, r, [EndThinking(h.content)]);
      } else {
        AddsExactly(h, r, []);
      }
    } else if kind == Some(Str("response")) {
      StreamingAdds(h, OpenResponse(h), r, UpdateMessage(r.content, false));
    } else if kind == Some(Str("tool_call")) {
      if IsText(text) {
        AddsExactly(h, r, [AddToolMessage("tool_call", TextOr(text, TOOL_CALL_DEFAULT))]);
      } else {
        AddsExactly(h, r, [PrepareToolContainer]);
      }
    } else if kind == Some(Str("tool_result")) {
      if IsText(text) {
        AddsExactly(h, r, [AddToolMessage("tool_result", TextOr(text, TOOL_RESULT_DEFAULT))]);
      } else {
        AddsExactly(h, r, [PrepareToolContainer]);
      }
    } else if kind == Some(Str("final_answer")) {
      if IsText(text) {
        AddsExactly(h, r, [AddMessage(TextOr(text, ANSWER_DEFAULT), false), MarkToolContainerCompleted, EnableInput]);
      } else {
        AddsExactly(h, r, []);
      }
    } else if kind == Some(Str("done")) {
      AddsExactly(h, r, [EnableInput, MarkToolContainerCompleted]);
    } else {
      AddsExactly(h, r, []);
    }
  }

  /** The text a thinking or response event adds. */
  function EventText(event: Value): string
    requires !event.Null?
  {
    if JsProperty(event, "type") == Some(Str("thinking_stream")) || JsProperty(event, "type") == Some(Str("response")) then
      TextOr(JsProperty(event, "content"), "")
    else ""
  }

  /**
   * An event makes the handler return exactly when it is a final answer with
   * text content or the end of the conversation.
   */
  lemma HandleEventReturns(h: Handler, event: Value)
    requires !event.Null?
    ensures HandleEvent(h, event).returned <==> h.returned || ConcludingKind(event)
  {
    if !ConcludingKind(event) {
      assert HandleEvent(h, event).returned == h.returned;
    }
  }

  /**
   * A final answer whose content is a number, a boolean, an array or an
   * object shows nothing and does not end the handler: the lines after it
   * are handled as if it had not come, and the input is not enabled by it.
   */
  lemma NonTextAnswerIsSkipped(h: Handler, line: string, rest: seq<string>, parse: string -> Option<Value>)
    requires EventOf(line, parse).Some?
    requires var event := EventOf(line, parse).value;
      && !Truthy(JsProperty(event, "error"))
      && JsProperty(event, "type") == Some(Str("final_answer"))
      && !IsText(JsProperty(event, "content"))
    ensures !IsTerminal(line, parse)
    ensures Fold(h, [line] + rest, parse) == Fold(h, rest, parse)
  {
    var event := EventOf(line, parse).value;
    HandleLineWithEvent(h, line, parse);
    assert HandleEvent(h, event) == h;
    if !h.returned {
      assert ([line] + rest)[1..] == rest;
    }
  }

  /** A tool event whose content is not text gets the tool container ready and shows no step. */
  lemma NonTextToolEventShowsNoStep(h: Handler, event: Value)
    requires !event.Null?
    requires JsProperty(event, "type") == Some(Str("tool_call")) || JsProperty(event, "type") == Some(Str("tool_result"))
    requires !IsText(JsProperty(event, "content"))
    ensures HandleEvent(h, event).actions == h.actions + [PrepareToolContainer]
    ensures forall a :: a in HandleEvent(h, event).actions[|h.actions|..] ==> !a.AddToolMessage?
  {
    var r := HandleEvent(h, event);
    AddsExactly(h, r, [PrepareToolContainer]);
  }

  /** What one event does to the handler's text. */
  lemma HandleEventText(h: Handler, event: Value)
    requires !event.Null?
    requires h.messageOpen || h.content == ""
    ensures var r := HandleEvent(h, event);
      && r.content == h.content + EventText(event)
      && (r.messageOpen || r.content == "")
  {
    var kind := JsProperty(event, "type");
    if kind == Some(Str("thinking_stream")) {
      assert HandleEvent(h, event).content == OpenThinking(h).content + TextOr(JsProperty(event, "content"), "");
    } else if kind == Some(Str("response")) {
      assert HandleEvent(h, event).content == OpenResponse(h).content + TextOr(JsProperty(event, "content"), "");
    } else {
      assert EventText(event) == "";
      assert HandleEvent(h, event).content == h.content;
    }
  }

  /** A line without an event is `[DONE]`, which returns, or changes nothing. */
  lemma HandleLineWithoutEvent(h: Handler, line: string, parse: string -> Option<Value>)
    requires EventOf(line, parse).None?
    ensures HandleLine(h, line, parse) == if IsTerminal(line, parse) then h.(returned := true) else h
  {
  }

  /** A line with an event reports its error and returns, or handles the event. */
  lemma HandleLineWithEvent(h: Handler, line: string, parse: string -> Option<Value>)
    requires EventOf(line, parse).Some?
    ensures var event := EventOf(line, parse).value;
      HandleLine(h, line, parse) ==
        if Truthy(JsProperty(event, "error")) then
          h.(actions := h.actions + [AddMessage("错误: " + JsString(JsProperty(event, "error").value), false)], returned := true)
        else HandleEvent(h, event)
  {
  }

  /** One line: it makes the handler return exactly when it is terminal, and otherwise adds its contribution to the text. */
  lemma HandleLineText(h: Handler, line: string, parse: string -> Option<Value>)
    requires !h.returned
    requires h.messageOpen || h.content == ""
    ensures var r := HandleLine(h, line, parse);
      && (r.returned <==> IsTerminal(line, parse))
      && (!IsTerminal(line, parse) ==> r.content == h.content + Contribution(line, parse) && (r.messageOpen || r.content == ""))
      && (IsTerminal(line, parse) ==> r.content == h.content)
  {
    if EventOf(line, parse).Some? {
      var event := EventOf(line, parse).value;
      HandleLineWithEvent(h, line, parse);
      if !Truthy(JsProperty(event, "error")) {
        HandleEventReturns(h, event);
        HandleEventText(h, event);
      }
    } else {
      HandleLineWithoutEvent(h, line, parse);
    }
  }

  /** One line only adds to the page, and adds `EnableInput` exactly when it is a final answer with text content or a `done` event. */
  lemma HandleLineActions(h: Handler, line: string, parse: string -> Option<Value>)
    ensures var r := HandleLine(h, line, parse);
      && Extends(h, r)
      && (EnableInput in r.actions[|h.actions|..] <==> EventOf(line, parse).Some? && Concludes(EventOf(line, parse).value))
  {
    var r := HandleLine(h, line, parse);
    if EventOf(line, parse).Some? {
      var event := EventOf(line, parse).value;
      HandleLineWithEvent(h, line, parse);
      if Truthy(JsProperty(event, "error")) {
        AddsExactly(h, r, [AddMessage("错误: " + JsString(JsProperty(event, "error").value), false)]);
      } else {
        HandleEventAdds(h, event);
      }
    } else {
      HandleLineWithoutEvent(h, line, parse);
      AddsExactly(h, r, []);
    }
  }

  /**
   * The handler returns exactly when some line is terminal: a `data: [DONE]`
   * line, an error, a final answer with text content or a `done` event.
   */
  lemma {:induction false} ReturnsIffTerminalLine(h: Handler, lines: seq<string>, parse: string -> Option<Value>)
    requires !h.returned
    requires h.messageOpen || h.content == ""
    ensures Fold(h, lines, parse).returned <==> exists i :: 0 <= i < |lines| && IsTerminal(lines[i], parse)
    decreases |lines|
  {
    if |lines| > 0 {
      HandleLineText(h, lines[0], parse);
      if !IsTerminal(lines[0], parse) {
        ReturnsIffTerminalLine(HandleLine(h, lines[0], parse), lines[1..], parse);
        assert forall i :: 1 <= i < |lines| ==> lines[i] == lines[1..][i - 1];
      }
    }
  }

  /**
   * The assistant message holds the content of every thinking and response
   * event before the first terminal line, in order, in one text: the
   * response is appended to the thinking that came before it.
   */
  lemma {:induction false} ContentIsStreamedText(h: Handler, lines: seq<string>, parse: string -> Option<Value>)
    requires !h.returned
    requires h.messageOpen || h.content == ""
    ensures Fold(h, lines, parse).content == h.content + Streamed(lines, parse)
    decreases |lines|
  {
    if |lines| == 0 || IsTerminal(lines[0], parse) {
      StreamedTextAtEnd(h, lines, parse);
    } else {
      HandleLineText(h, lines[0], parse);
      ContentIsStreamedText(HandleLine(h, lines[0], parse), lines[1..], parse);
      StreamedTextStep(h, lines, parse);
    }
  }

  /** No line, or a terminal first line: the text stays as it is. */
  lemma StreamedTextAtEnd(h: Handler, lines: seq<string>, parse: string -> Option<Value>)
    requires !h.returned
    requires h.messageOpen || h.content == ""
    requires |lines| == 0 || IsTerminal(lines[0], parse)
    ensures Fold(h, lines, parse).content == h.content + Streamed(lines, parse)
  {
    if |lines| > 0 {
      HandleLineText(h, lines[0], parse);
    }
    assert Streamed(lines, parse) == "";
    assert h.content + "" == h.content;
  }

  /** A line that is not terminal adds its contribution before the text of the rest. */
  lemma StreamedTextStep(h: Handler, lines: seq<string>, parse: string -> Option<Value>)
    requires !h.returned && |lines| > 0 && !IsTerminal(lines[0], parse)
    requires HandleLine(h, lines[0], parse).content == h.content + Contribution(lines[0], parse)
    requires var next := HandleLine(h, lines[0], parse);
      Fold(next, lines[1..], parse).content == next.content + Streamed(lines[1..], parse)
    ensures Fold(h, lines, parse).content == h.content + Streamed(lines, parse)
  {
    var piece := Contribution(lines[0], parse);
    var tail := Streamed(lines[1..], parse);
    assert Streamed(lines, parse) == piece + tail;
    AppendAssoc(h.content, piece, tail);
  }

  /**
   * The handler only adds to the page, and it enables the input again
   * exactly when the first terminal line is a final answer with text
   * content or a `done` event: after `[DONE]`, an error, or the end of the
   * body, the input stays disabled.
   */
  lemma {:induction false} InputEnabledOnlyByConclusion(h: Handler, lines: seq<string>, parse: string -> Option<Value>)
    requires !h.returned
    requires h.messageOpen || h.content == ""
    ensures var r := Fold(h, lines, parse);
      && Extends(h, r)
      && (EnableInput in r.actions[|h.actions|..] <==> InputReenabled(lines, parse))
    decreases |lines|
  {
    if |lines| > 0 {
      HandleLineText(h, lines[0], parse);
      HandleLineActions(h, lines[0], parse);
      var next := HandleLine(h, lines[0], parse);
      if !IsTerminal(lines[0], parse) {
        InputEnabledOnlyByConclusion(next, lines[1..], parse);
        ExtendsChain(h, next, Fold(next, lines[1..], parse));
      }
    } else {
      AddsExactly(h, h, []);
    }
  }

  /** Extending an extension extends the original; what is added is what each step added. */
  lemma ExtendsChain(h: Handler, m: Handler, r: Handler)
    requires Extends(h, m) && Extends(m, r)
    ensures Extends(h, r) && r.actions[|h.actions|..] == m.actions[|h.actions|..] + r.actions[|m.actions|..]
  {
    assert r.actions[..|h.actions|] == r.actions[..|m.actions|][..|h.actions|];
  }

  /** Lines that do not start with `data: ` change nothing: blank lines and comments of the event stream are skipped. */
  lemma {:induction false} OnlyDataLinesMatter(h: Handler, lines: seq<string>, parse: string -> Option<Value>)
    ensures Fold(h, lines, parse) == Fold(h, DataLines(lines), parse)
    decreases |lines|
  {
    if |lines| > 0 && !h.returned {
      OnlyDataLinesMatter(HandleLine(h, lines[0], parse), lines[1..], parse);
      OnlyDataLinesMatter(h, lines[1..], parse);
      if StartsWith(lines[0], DATA_PREFIX) {
        var d := [lines[0]] + DataLines(lines[1..]);
        assert d[0] == lines[0] && d[1..] == DataLines(lines[1..]);
      } else {
        assert DataLines(lines) == [] + DataLines(lines[1..]) == DataLines(lines[1..]);
      }
    }
  }

  /**
   * The whole response: the assistant message holds the streamed text, the
   * handler returns exactly when a terminal line arrives, and the input is
   * enabled again exactly when that line is a final answer with text
   * content or a `done` event; the outer catch only ever adds a message.
   */
  lemma StreamOutcome(body: Body, parse: string -> Option<Value>)
    ensures var r := HandleStream(body, parse);
      var lines := Lines(body.chunks);
      && r.content == Streamed(lines, parse)
      && (r.returned <==> exists i :: 0 <= i < |lines| && IsTerminal(lines[i], parse))
      && (EnableInput in r.actions <==> InputReenabled(lines, parse))
  {
    var lines := Lines(body.chunks);
    ContentIsStreamedText(START, lines, parse);
    ReturnsIffTerminalLine(START, lines, parse);
    InputEnabledOnlyByConclusion(START, lines, parse);
    var f := Fold(START, lines, parse);
    assert f.actions[|START.actions|..] == f.actions;
    assert "" + Streamed(lines, parse) == Streamed(lines, parse);
  }
}
