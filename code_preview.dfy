/** The code/preview viewer (GeneratedCodePreview.tsx): the language chosen for
    a file name, the preview excerpt, the initially active file, the tabs of
    code mode and the dispatch on the display mode. */
module CodePreview {
  import opened Text

  /** The page's `previewMode`, passed to the viewer as `mode`. */
  datatype Mode = Code | Preview

  /** A `Record<string, string>` from file name to file content, as an ordered
      list of entries: the viewer shows the files in key order. */
  type FileMap = seq<(string, string)>

  /** `Object.keys(code)` */
  function Keys(code: FileMap): (ks: seq<string>)
    ensures |ks| == |code|
    ensures forall i :: 0 <= i < |code| ==> ks[i] == code[i].0
  {
    seq(|code|, i requires 0 <= i < |code| => code[i].0)
  }

  /** The keys of a JavaScript object are distinct. */
  predicate DistinctKeys(code: FileMap) {
    forall i, j :: 0 <= i < j < |code| ==> code[i].0 != code[j].0
  }

  /** `code[name]`: the content stored under `name`, if any. */
  function Lookup(code: FileMap, name: string): (r: Option<string>)
    ensures r.None? <==> name !in Keys(code)
    ensures r.Some? ==> (name, r.value) in code
  {
    if code == [] then None
    else if code[0].0 == name then Some(code[0].1)
    else
      assert Keys(code) == [code[0].0] + Keys(code[1..]);
      Lookup(code[1..], name)
  }

  // ---------------------------------------------------------------------------
  // Language classification

  const DefaultLanguage := "javascript"

  /** Every result the classification can give. */
  const LanguageNames: set<string> := {"javascript", "typescript", "css", "html", "json", "markdown"}

  /** `getLanguage(filename)`: the language used to highlight a file. */
  function Language(filename: string): (r: string)
    ensures r in LanguageNames
  {
    if EndsWith(filename, ".js") || EndsWith(filename, ".jsx") then "javascript"
    else if EndsWith(filename, ".ts") || EndsWith(filename, ".tsx") then "typescript"
    else if EndsWith(filename, ".css") then "css"
    else if EndsWith(filename, ".html") then "html"
    else if EndsWith(filename, ".json") then "json"
    else if EndsWith(filename, ".md") then "markdown"
    else DefaultLanguage
  }

  /** The classification written as a table: each row lists suffixes and the
      language they select; rows are tried in order. */
  const LanguageRules: seq<(seq<string>, string)> := [
    ([".js", ".jsx"], "javascript"),
    ([".ts", ".tsx"], "typescript"),
    ([".css"], "css"),
    ([".html"], "html"),
    ([".json"], "json"),
    ([".md"], "markdown")
  ]

  /** Every suffix that appears in the table. */
  const Suffixes: set<string> := {".js", ".jsx", ".ts", ".tsx", ".css", ".html", ".json", ".md"}

  predicate EndsWithAny(name: string, suffixes: seq<string>) {
    exists s <- suffixes :: EndsWith(name, s)
  }

  /** The language of the first row of `rules` with a suffix of `name`, or the default. */
  function FirstMatch(rules: seq<(seq<string>, string)>, name: string): string {
    if rules == [] then DefaultLanguage
    else if EndsWithAny(name, rules[0].0) then rules[0].1
    else FirstMatch(rules[1..], name)
  }

  lemma EndsWithAnyOf(name: string, suffixes: seq<string>)
    requires 1 <= |suffixes| <= 2
    ensures EndsWithAny(name, suffixes) <==>
      EndsWith(name, suffixes[0]) || (|suffixes| == 2 && EndsWith(name, suffixes[1]))
  {
  }

  /** The if-chain of `getLanguage` is the first-match reading of the table. */
  lemma LanguageIsFirstMatch(filename: string)
    ensures Language(filename) == FirstMatch(LanguageRules, filename)
  {
    var f := filename;
    var rules := LanguageRules;
    FirstMatchOfSix(f, rules[0], rules[1], rules[2], rules[3], rules[4], rules[5]);
    EndsWithAnyOf(f, rules[0].0);
    EndsWithAnyOf(f, rules[1].0);
    EndsWithAnyOf(f, rules[2].0);
    EndsWithAnyOf(f, rules[3].0);
    EndsWithAnyOf(f, rules[4].0);
    EndsWithAnyOf(f, rules[5].0);
  }

  lemma FirstMatchOfSix(name: string, r0: (seq<string>, string), r1: (seq<string>, string),
                        r2: (seq<string>, string), r3: (seq<string>, string),
                        r4: (seq<string>, string), r5: (seq<string>, string))
    ensures FirstMatch([r0, r1, r2, r3, r4, r5], name) ==
      if EndsWithAny(name, r0.0) then r0.1
      else if EndsWithAny(name, r1.0) then r1.1
      else if EndsWithAny(name, r2.0) then r2.1
      else if EndsWithAny(name, r3.0) then r3.1
      else if EndsWithAny(name, r4.0) then r4.1
      else if EndsWithAny(name, r5.0) then r5.1
      else DefaultLanguage
  {
    var t5 := [r5];
    var t4 := [r4] + t5;
    var t3 := [r3] + t4;
    var t2 := [r2] + t3;
    var t1 := [r1] + t2;
    assert [r0, r1, r2, r3, r4, r5] == [r0] + t1;
    assert t5[1..] == [] && t4[1..] == t5 && t3[1..] == t4 && t2[1..] == t3 && t1[1..] == t2;
    assert FirstMatch(t5, name) == if EndsWithAny(name, r5.0) then r5.1 else DefaultLanguage;
    assert FirstMatch(t4, name) == if EndsWithAny(name, r4.0) then r4.1 else FirstMatch(t5, name);
    assert FirstMatch(t3, name) == if EndsWithAny(name, r3.0) then r3.1 else FirstMatch(t4, name);
    assert FirstMatch(t2, name) == if EndsWithAny(name, r2.0) then r2.1 else FirstMatch(t3, name);
    assert FirstMatch(t1, name) == if EndsWithAny(name, r1.0) then r1.1 else FirstMatch(t2, name);
  }

  /** Two suffixes of one string: the shorter is a suffix of the longer. */
  lemma SuffixOfSuffix(name: string, a: string, b: string)
    requires EndsWith(name, a) && EndsWith(name, b) && |a| <= |b|
    ensures EndsWith(b, a)
  {
    assert name[|name| - |b|..][|b| - |a|..] == name[|name| - |a|..];
  }

  /** No suffix of the table ends another one: any two differ in one of
      their last two characters. */
  lemma SuffixesIndependent()
    ensures forall a, b :: a in Suffixes && b in Suffixes && |a| <= |b| && EndsWith(b, a) ==> a == b
  {
    forall a, b | a in Suffixes && b in Suffixes && |a| <= |b| && EndsWith(b, a)
      ensures a == b
    {
      assert a[|a| - 1] == b[|b| - 1];
      assert a[|a| - 2] == b[|b| - 2];
    }
  }

  /** No name ends with two different suffixes of the table. */
  lemma AtMostOneSuffix(name: string)
    ensures forall a, b :: a in Suffixes && b in Suffixes && EndsWith(name, a) && EndsWith(name, b) ==> a == b
  {
    SuffixesIndependent();
    forall a, b | a in Suffixes && b in Suffixes && EndsWith(name, a) && EndsWith(name, b)
      ensures a == b
    {
      if |a| <= |b| { SuffixOfSuffix(name, a, b); } else { SuffixOfSuffix(name, b, a); }
    }
  }

  /** Since at most one suffix matches, each language is selected exactly by
      its own suffixes, whatever the order of the rules; every other name is
      highlighted as JavaScript. */
  lemma LanguageBySuffix(f: string)
    ensures Language(f) == "javascript" <==>
      !(EndsWith(f, ".ts") || EndsWith(f, ".tsx") || EndsWith(f, ".css") ||
        EndsWith(f, ".html") || EndsWith(f, ".json") || EndsWith(f, ".md"))
    ensures Language(f) == "typescript" <==> EndsWith(f, ".ts") || EndsWith(f, ".tsx")
    ensures Language(f) == "css" <==> EndsWith(f, ".css")
    ensures Language(f) == "html" <==> EndsWith(f, ".html")
    ensures Language(f) == "json" <==> EndsWith(f, ".json")
    ensures Language(f) == "markdown" <==> EndsWith(f, ".md")
  {
    AtMostOneSuffix(f);
  }

  // ---------------------------------------------------------------------------
  // Preview excerpt

  /** The preview shows at most this many lines. */
  const PreviewLineLimit := 5

  const NoFileSelected := "No file selected"
  const Ellipsis := "\n..."

  /** `content.split('\n').slice(0, 5).join('\n')`: always a leading part of the content. */
  function Snippet(content: string): (r: string)
    ensures r <= content
  {
    var lines := Split(content, '\n');
    JoinSplit(content, '\n');
    JoinPrefix(lines, Min(PreviewLineLimit, |lines|), '\n');
    Join(lines[..Min(PreviewLineLimit, |lines|)], '\n')
  }

  /** The excerpt is the leading part of the content up to, not including, its
      fifth line break: the whole content when it has at most five lines, and
      otherwise exactly the first five lines. */
  lemma SnippetIsLeadingLines(content: string)
    ensures Count(Snippet(content), '\n') == Min(PreviewLineLimit - 1, Count(content, '\n'))
    ensures Count(content, '\n') < PreviewLineLimit ==> Snippet(content) == content
    ensures Count(content, '\n') >= PreviewLineLimit ==>
      |Snippet(content)| < |content| && content[|Snippet(content)|] == '\n'
  {
    var lines := Split(content, '\n');
    var r := Snippet(content);
    JoinSplit(content, '\n');
    if |lines| <= PreviewLineLimit {
      assert lines[..|lines|] == lines;
      assert r == content;
    } else {
      var shown := lines[..PreviewLineLimit];
      assert r == Join(shown, '\n');
      JoinAt(lines, PreviewLineLimit, '\n');
      assert content == r + "\n" + Join(lines[PreviewLineLimit..], '\n');
      CountJoin(shown, '\n');
    }
  }

  /** A content whose sixth line starts after `head` is excerpted to `head`. */
  lemma SnippetOfLongContent(head: string, tail: string)
    requires Count(head, '\n') == PreviewLineLimit - 1
    ensures Snippet(head + "\n" + tail) == head
  {
    var content := head + "\n" + tail;
    var r := Snippet(content);
    assert content[..|head|] == head;
    assert content[|head|] == '\n';
    CountPrefix(head + "\n", content, '\n');
    SnippetIsLeadingLines(content);
    if |r| < |head| {
      assert r + "\n" <= head;
      CountPrefix(r + "\n", head, '\n');
    } else if |r| > |head| {
      assert head + "\n" <= r;
      CountPrefix(head + "\n", r, '\n');
    }
  }

  /** The same, for a content whose first five lines are given one by one. */
  lemma SnippetOfLines(lines: seq<string>, tail: string)
    requires |lines| == PreviewLineLimit
    requires forall i :: 0 <= i < |lines| ==> '\n' !in lines[i]
    ensures Snippet(Join(lines, '\n') + "\n" + tail) == Join(lines, '\n')
  {
    CountJoin(lines, '\n');
    SnippetOfLongContent(Join(lines, '\n'), tail);
  }

  /** The preview shows a file's excerpt when a file is active and its content is not empty. */
  predicate ShowsFile(code: FileMap, activeFile: string)
    ensures ShowsFile(code, activeFile) ==> activeFile in Keys(code)
  {
    activeFile != "" && Lookup(code, activeFile).Some? && Lookup(code, activeFile).value != ""
  }

  /** The text inside the preview pane: the placeholder exactly when no file
      with content is active. */
  function PreviewText(code: FileMap, activeFile: string): (r: string)
    ensures r == NoFileSelected <==> !ShowsFile(code, activeFile)
  {
    if ShowsFile(code, activeFile) then
      var r := Snippet(Lookup(code, activeFile).value) + Ellipsis;
      assert r[|r| - 1] == '.' != NoFileSelected[|NoFileSelected| - 1];
      r
    else NoFileSelected
  }

  /** The pane reads "No file selected" exactly when no file with content is
      active; otherwise it shows a leading part of that content with at most
      four line breaks, always followed by the ellipsis, even when nothing of
      the content was cut. */
  lemma PreviewTextSpec(code: FileMap, activeFile: string)
    ensures PreviewText(code, activeFile) == NoFileSelected <==> !ShowsFile(code, activeFile)
    ensures ShowsFile(code, activeFile) ==>
      var r, content := PreviewText(code, activeFile), Lookup(code, activeFile).value;
      EndsWith(r, Ellipsis) &&
      r[..|r| - |Ellipsis|] <= content &&
      Count(r[..|r| - |Ellipsis|], '\n') == Min(PreviewLineLimit - 1, Count(content, '\n'))
  {
    if ShowsFile(code, activeFile) {
      var content := Lookup(code, activeFile).value;
      var s := Snippet(content);
      var r := s + Ellipsis;
      SnippetIsLeadingLines(content);
      assert r[..|r| - |Ellipsis|] == s;
    }
  }

  // ---------------------------------------------------------------------------
  // Active file, tabs and mode dispatch

  /** `Object.keys(code)[0] || ''`: the file active when the viewer mounts. */
  function InitialActiveFile(code: FileMap): (r: string)
    ensures code == [] ==> r == ""
    ensures code != [] ==> r == Keys(code)[0]
    ensures r != "" ==> Lookup(code, r).Some?
  {
    if code == [] then "" else code[0].0
  }

  datatype Icon = FileIcon | FolderIcon

  /** One tab of code mode: its trigger (icon and name) and its highlighted content. */
  datatype Tab = Tab(name: string, icon: Icon, language: string, content: string)

  /** `FileIcon` for names ending in `.json`, `Folder` for all others. */
  function TabIcon(name: string): (i: Icon)
    ensures i == FileIcon <==> EndsWith(name, ".json")
  {
    if EndsWith(name, ".json") then FileIcon else FolderIcon
  }

  /** The tabs of code mode, one per entry of `code`. */
  function Tabs(code: FileMap): (tabs: seq<Tab>)
    ensures |tabs| == |code|
  {
    seq(|code|, i requires 0 <= i < |code| =>
      Tab(code[i].0, TabIcon(code[i].0), Language(code[i].0), code[i].1))
  }

  /** One tab per key, in key order, each showing its own file's content
      highlighted in the language its name selects, with the file icon exactly
      on the `.json` names; distinct keys give distinct tabs. */
  lemma TabsFollowKeys(code: FileMap)
    ensures forall i :: 0 <= i < |code| ==>
      Tabs(code)[i].name == Keys(code)[i] &&
      Tabs(code)[i].content == code[i].1 &&
      (Tabs(code)[i].icon == FileIcon <==> EndsWith(code[i].0, ".json")) &&
      Tabs(code)[i].language == Language(code[i].0)
    ensures DistinctKeys(code) ==>
      forall i, j :: 0 <= i < j < |code| ==> Tabs(code)[i].name != Tabs(code)[j].name
  {
  }

  /** What the viewer renders. */
  datatype View = PreviewPane(text: string) | CodePane(defaultTab: string, tabs: seq<Tab>)

  /** The viewer's output for its props and its `activeFile`: `mode === 'preview'`
      selects the preview pane, anything else the tabs. */
  function Display(code: FileMap, mode: Mode, activeFile: string): (v: View)
    ensures v.PreviewPane? <==> mode == Preview
    ensures v.PreviewPane? ==> v.text == PreviewText(code, activeFile)
    ensures v.CodePane? ==> v.defaultTab == activeFile && v.tabs == Tabs(code)
  {
    if mode == Preview then PreviewPane(PreviewText(code, activeFile))
    else CodePane(activeFile, Tabs(code))
  }

  /** A mounted viewer: its props and its one piece of local state, `activeFile`. */
  class Viewer {
    var code: FileMap
    var mode: Mode
    var activeFile: string

    /** Mounting: `activeFile` starts at the first key of `code`. */
    constructor (code: FileMap, mode: Mode)
      ensures this.code == code && this.mode == mode
      ensures activeFile == InitialActiveFile(code)
    {
      this.code := code;
      this.mode := mode;
      activeFile := InitialActiveFile(code);
    }

    /** `setActiveFile` from the tabs' `onValueChange`. */
    method SelectTab(name: string)
      modifies this`activeFile
      ensures activeFile == name
      ensures code == old(code) && mode == old(mode)
    {
      activeFile := name;
    }

    /** A re-render with new props keeps `activeFile`: the initial value is
        only read when the viewer mounts. */
    method Rerender(code: FileMap, mode: Mode)
      modifies this`code, this`mode
      ensures this.code == code && this.mode == mode
      ensures activeFile == old(activeFile)
    {
      this.code := code;
      this.mode := mode;
    }
  }
}
