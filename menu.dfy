/** The UI caller's start-up work on the main menus, and the service that
    starts its UI. On construction, each of the two menu directories
    (`ui.dm` and `ui.dm.mobile` under the configuration root) that exists is
    scanned. Every file whose lower-cased name starts with `main_menu` gets the
    entry `/title|url|namespaceUIService` appended on a line of its own,
    unless one of its lines already mentions `namespaceUIService`. Files are
    texts; the directory listing is a sequence of named files. */
module Menus {
  import opened Common

  const MENU_PREFIX := "main_menu"
  const SERVICE_SUFFIX := "UIService"
  const START_SUFFIX := "startUI"

  /** A file of a menu directory: its name and its whole text. */
  datatype MenuFile = MenuFile(name: string, content: string)

  /** Length of the first line: the characters before the first line break. */
  function LineLength(text: string): (k: nat)
    ensures k <= |text|
    ensures '\n' !in text[..k]
    ensures k < |text| ==> text[k] == '\n'
  {
    if text == [] || text[0] == '\n' then 0 else 1 + LineLength(text[1..])
  }

  /** The lines `readLine` returns one after the other, without their line
      breaks; a final line break does not start another line. */
  function Lines(text: string): (ls: seq<string>)
    ensures ls == [] <==> text == []
    ensures forall j :: 0 <= j < |ls| ==> '\n' !in ls[j]
    decreases |text|
  {
    if text == [] then []
    else
      var k := LineLength(text);
      if k == |text| then [text] else [text[..k]] + Lines(text[k + 1..])
  }

  /** The marker that shows a menu already has the service's entry. */
  function Marker(namespace: string): (m: string)
    ensures |namespace| < |m| && m[..|namespace|] == namespace
    ensures '\n' !in m <==> forall j :: 0 <= j < |namespace| ==> namespace[j] != '\n'
  {
    assert forall j | |namespace| <= j < |namespace| + |SERVICE_SUFFIX| ::
      (namespace + SERVICE_SUFFIX)[j] == SERVICE_SUFFIX[j - |namespace|] != '\n';
    namespace + SERVICE_SUFFIX
  }

  /** The entry line appended to a menu. */
  function Entry(namespace: string, url: string, title: string): (e: string)
    ensures 0 < |e| && e[0] == '/'
    ensures |Marker(namespace)| <= |e| && e[|e| - |Marker(namespace)|..] == Marker(namespace)
  {
    "/" + title + "|" + url + "|" + Marker(namespace)
  }

  /** Some line of the text mentions the marker. */
  predicate Mentions(text: string, marker: string)
  {
    exists j | 0 <= j < |Lines(text)| :: Contains(Lines(text)[j], marker)
  }

  /** The menu after one update: unchanged when it mentions the marker,
      otherwise the old text, a line break, the entry and a line break. */
  function Populated(content: string, namespace: string, url: string, title: string): (r: string)
    ensures Mentions(content, Marker(namespace)) ==> r == content
    ensures !Mentions(content, Marker(namespace)) ==> r == content + "\n" + Entry(namespace, url, title) + "\n"
    ensures r[..|content|] == content
  {
    if Mentions(content, Marker(namespace)) then content
    else content + "\n" + Entry(namespace, url, title) + "\n"
  }

  /** `Character.toLowerCase` on the ASCII letters. */
  function AsciiLower(c: char): char
  {
    if 'A' <= c <= 'Z' then (c as int + 32) as char else c
  }

  function LowerCase(s: string): (r: string)
    ensures |r| == |s| && forall i :: 0 <= i < |s| ==> r[i] == AsciiLower(s[i])
  {
    seq(|s|, i requires 0 <= i < |s| => AsciiLower(s[i]))
  }

  /** The file filter: a name that starts with `main_menu` in any case. */
  predicate IsMenuFile(name: string): (b: bool)
    ensures b <==> |MENU_PREFIX| <= |name| && forall i :: 0 <= i < |MENU_PREFIX| ==> AsciiLower(name[i]) == MENU_PREFIX[i]
    ensures StartsWith(name, MENU_PREFIX) ==> b
  {
    StartsWith(LowerCase(name), MENU_PREFIX)
  }

  /** The read loop of `populate` on one file: reads line after line and
      stops at the first one that contains the marker. */
  method Scan(content: string, marker: string) returns (found: bool)
    ensures found <==> Mentions(content, marker)
  {
    var lines := Lines(content);
    var i := 0;
    found := false;
    while i < |lines| && !found
      invariant 0 <= i <= |lines|
      invariant found ==> 0 < i && Contains(lines[i - 1], marker)
      invariant !found ==> forall j :: 0 <= j < i ==> !Contains(lines[j], marker)
    {
      if Contains(lines[i], marker) {
        found := true;
      }
      i := i + 1;
    }
  }

  /** A menu directory after `populate`: each menu file populated, every
      other file as it was, names and order kept. */
  function PopulatedDirectory(files: seq<MenuFile>, namespace: string, url: string, title: string): (r: seq<MenuFile>)
    ensures |r| == |files|
    ensures forall i :: 0 <= i < |files| ==> r[i].name == files[i].name
    ensures forall i :: 0 <= i < |files| ==>
              r[i].content == if IsMenuFile(files[i].name) then Populated(files[i].content, namespace, url, title)
                              else files[i].content
  {
    seq(|files|, i requires 0 <= i < |files| =>
      if IsMenuFile(files[i].name) then files[i].(content := Populated(files[i].content, namespace, url, title))
      else files[i])
  }

  /** `populate` on one menu directory: every menu file is scanned and, if
      the entry is missing, extended; other files are not touched. */
  method Populate(files: seq<MenuFile>, namespace: string, url: string, title: string) returns (updated: seq<MenuFile>)
    ensures updated == PopulatedDirectory(files, namespace, url, title)
    ensures |updated| == |files|
    ensures forall i :: 0 <= i < |files| ==> updated[i].name == files[i].name
    ensures forall i :: 0 <= i < |files| ==>
              updated[i].content == if IsMenuFile(files[i].name) then Populated(files[i].content, namespace, url, title)
                                    else files[i].content
  {
    updated := [];
    for i := 0 to |files|
      invariant |updated| == i
      invariant forall j :: 0 <= j < i ==> updated[j].name == files[j].name
      invariant forall j :: 0 <= j < i ==>
                  updated[j].content == if IsMenuFile(files[j].name) then Populated(files[j].content, namespace, url, title)
                                        else files[j].content
    {
      var file := files[i];
      if IsMenuFile(file.name) {
        var found := Scan(file.content, Marker(namespace));
        if !found {
          file := file.(content := file.content + "\n" + Entry(namespace, url, title) + "\n");
        }
      }
      updated := updated + [file];
    }
    assert updated == PopulatedDirectory(files, namespace, url, title);
  }

  /** The constructor's work: each directory is populated only when it
      exists (`Some`). The configuration root is a parameter. */
  method PopulateConfiguration(dm: Option<seq<MenuFile>>, dmMobile: Option<seq<MenuFile>>,
                               namespace: string, url: string, title: string)
    returns (dm': Option<seq<MenuFile>>, dmMobile': Option<seq<MenuFile>>)
    ensures dm'.Some? <==> dm.Some?
    ensures dmMobile'.Some? <==> dmMobile.Some?
    ensures dm.Some? ==> dm'.value == PopulatedDirectory(dm.value, namespace, url, title)
    ensures dmMobile.Some? ==> dmMobile'.value == PopulatedDirectory(dmMobile.value, namespace, url, title)
  {
    dm', dmMobile' := dm, dmMobile;
    if dm.Some? {
      var files := Populate(dm.value, namespace, url, title);
      dm' := Some(files);
    }
    if dmMobile.Some? {
      var files := Populate(dmMobile.value, namespace, url, title);
      dmMobile' := Some(files);
    }
  }

  lemma {:induction false} LineLengthAppend(q: string, s: string)
    requires LineLength(q) < |q|
    ensures LineLength(q + s) == LineLength(q)
  {
    if q[0] != '\n' {
      assert (q + s)[1..] == q[1..] + s;
      LineLengthAppend(q[1..], s);
    }
  }

  /** A text whose first line is complete splits into that line and the
      lines after its break. */
  lemma LinesUnfold(t: string)
    requires LineLength(t) < |t|
    ensures Lines(t) == [t[..LineLength(t)]] + Lines(t[LineLength(t) + 1..])
  {
  }

  /** Text appended after a complete first line leaves that line as it was
      and ends up after its break; what follows the break still ends with a
      break. */
  lemma SplitAfterFirstLine(q: string, s: string)
    requires q != [] && q[|q| - 1] == '\n'
    ensures LineLength(q) < |q| && LineLength(q + s) == LineLength(q)
    ensures (q + s)[..LineLength(q)] == q[..LineLength(q)]
    ensures (q + s)[LineLength(q) + 1..] == q[LineLength(q) + 1..] + s
    ensures var rest := q[LineLength(q) + 1..]; rest == [] || rest[|rest| - 1] == '\n'
  {
    var k := LineLength(q);
    assert q[|q| - 1] == '\n';
    LineLengthAppend(q, s);
    assert (q + s)[k + 1..] == q[k + 1..] + s;
  }

  /** Lines of a text that ends with a line break are not joined with what
      follows it. */
  lemma {:induction false} LinesAppend(q: string, s: string)
    requires q == [] || q[|q| - 1] == '\n'
    ensures Lines(q + s) == Lines(q) + Lines(s)
    decreases |q|
  {
    if q == [] {
      assert q + s == s;
    } else {
      var k := LineLength(q);
      var rest := q[k + 1..];
      assert Lines(q + s) == [q[..k]] + Lines(rest + s) by {
        SplitAfterFirstLine(q, s);
        LinesUnfold(q + s);
      }
      assert Lines(q) == [q[..k]] + Lines(rest) by {
        SplitAfterFirstLine(q, s);
        LinesUnfold(q);
      }
      assert Lines(rest + s) == Lines(rest) + Lines(s) by {
        SplitAfterFirstLine(q, s);
        LinesAppend(rest, s);
      }
      AppendAssociates([q[..k]], Lines(rest), Lines(s));
    }
  }

  /** A line without a break, followed by one, is one line. */
  lemma OneLine(e: string)
    requires forall j :: 0 <= j < |e| ==> e[j] != '\n'
    ensures Lines(e + "\n") == [e]
  {
    var t := e + "\n";
    assert forall j :: 0 <= j < |e| ==> t[j] == e[j];
    assert t[|e|] == '\n';
    assert LineLength(t) == |e|;
    assert t[..|e|] == e;
    assert t[|e| + 1..] == [];
  }

  /** The entry contains no line break when its parts contain none. */
  lemma EntryOneLine(namespace: string, url: string, title: string)
    requires forall j :: 0 <= j < |namespace| ==> namespace[j] != '\n'
    requires forall j :: 0 <= j < |url| ==> url[j] != '\n'
    requires forall j :: 0 <= j < |title| ==> title[j] != '\n'
    ensures var e := Entry(namespace, url, title); forall j :: 0 <= j < |e| ==> e[j] != '\n'
  {
    var e := Entry(namespace, url, title);
    forall j | 0 <= j < |e| ensures e[j] != '\n' {
      assert e == "/" + title + "|" + url + "|" + Marker(namespace);
    }
  }

  /** Appending a break, a line and a break adds exactly that line. */
  lemma AppendedLine(content: string, e: string)
    requires forall j :: 0 <= j < |e| ==> e[j] != '\n'
    ensures var lines := Lines(content + "\n" + e + "\n"); |lines| > 0 && lines[|lines| - 1] == e
  {
    OneLine(e);
    LinesAppend(content + "\n", e + "\n");
    assert content + "\n" + e + "\n" == (content + "\n") + (e + "\n");
  }

  /** The entry ends with the marker. */
  lemma EntryContainsMarker(namespace: string, url: string, title: string)
    ensures Contains(Entry(namespace, url, title), Marker(namespace))
  {
    var e := Entry(namespace, url, title);
    var m := Marker(namespace);
    assert e[|e| - |m|..] == m;
    assert OccursAt(e, m, |e| - |m|);
  }

  /** A text holding a line break keeps its first line when one more
      break is appended. */
  lemma FirstBreakInside(q: string)
    requires '\n' in q
    ensures LineLength(q) < |q| && LineLength(q + "\n") == LineLength(q)
  {
    LineLengthAppend(q, "\n");
  }

  /** The last line read from a text that ends with `m` and a line break
      contains `m`, when `m` holds no line break. */
  lemma {:induction false} LastLineEndsWith(q: string, m: string)
    requires '\n' !in m
    requires |m| <= |q| && q[|q| - |m|..] == m
    ensures var ls := Lines(q + "\n"); |ls| > 0 && Contains(ls[|ls| - 1], m)
    decreases |q|
  {
    var t := q + "\n";
    if '\n' !in q {
      OneLine(q);
      assert OccursAt(q, m, |q| - |m|);
    } else {
      FirstBreakInside(q);
      var k := LineLength(q);
      assert t[..k] == q[..k];
      var r := q[k + 1..];
      assert t[k + 1..] == r + "\n";
      assert r[|r| - |m|..] == m;
      LinesUnfold(t);
      LastLineEndsWith(r, m);
    }
  }

  /** A populated menu always mentions the marker, whatever it held before
      and whatever line breaks URL and title hold, when the namespace holds
      none: the appended text ends with the marker and a line break. */
  lemma PopulatedMentions(content: string, namespace: string, url: string, title: string)
    requires forall j :: 0 <= j < |namespace| ==> namespace[j] != '\n'
    ensures Mentions(Populated(content, namespace, url, title), Marker(namespace))
  {
    if !Mentions(content, Marker(namespace)) {
      var m := Marker(namespace);
      var q := content + "\n" + Entry(namespace, url, title);
      assert q[|q| - |m|..] == m;
      LastLineEndsWith(q, m);
      assert q + "\n" == content + "\n" + Entry(namespace, url, title) + "\n";
    }
  }

  /** Populating twice is populating once: the second run finds the entry
      the first one appended. */
  lemma PopulateIdempotent(content: string, namespace: string, url: string, title: string)
    requires forall j :: 0 <= j < |namespace| ==> namespace[j] != '\n'
    ensures var once := Populated(content, namespace, url, title);
            Populated(once, namespace, url, title) == once
  {
    PopulatedMentions(content, namespace, url, title);
  }

  /** After `populate`, every menu file of the directory mentions the
      service, whenever the namespace contains no line break. */
  lemma DirectoryMenusMention(files: seq<MenuFile>, namespace: string, url: string, title: string)
    requires forall j :: 0 <= j < |namespace| ==> namespace[j] != '\n'
    ensures var r := PopulatedDirectory(files, namespace, url, title);
            forall i :: 0 <= i < |r| && IsMenuFile(r[i].name) ==> Mentions(r[i].content, Marker(namespace))
  {
    var r := PopulatedDirectory(files, namespace, url, title);
    forall i | 0 <= i < |r| && IsMenuFile(r[i].name) ensures Mentions(r[i].content, Marker(namespace)) {
      PopulatedMentions(files[i].content, namespace, url, title);
    }
  }

  /** Restarting the caller does not add a second entry to any menu file. */
  lemma DirectoryIdempotent(files: seq<MenuFile>, namespace: string, url: string, title: string)
    requires forall j :: 0 <= j < |namespace| ==> namespace[j] != '\n'
    ensures var once := PopulatedDirectory(files, namespace, url, title);
            PopulatedDirectory(once, namespace, url, title) == once
  {
    var once := PopulatedDirectory(files, namespace, url, title);
    var twice := PopulatedDirectory(once, namespace, url, title);
    forall i | 0 <= i < |once| ensures twice[i] == once[i] {
      PopulateIdempotent(files[i].content, namespace, url, title);
    }
  }

  /** A text containing a part that holds a line break holds one itself. */
  lemma BreakSpreads(line: string, part: string)
    requires '\n' in part
    ensures Contains(line, part) ==> '\n' in line
  {
    if Contains(line, part) {
      var i :| 0 <= i <= |line| && OccursAt(line, part, i);
      var p :| 0 <= p < |part| && part[p] == '\n';
      assert line[i..i + |part|][p] == line[i + p];
    }
  }

  /** A marker with a line break is on no line, whatever the text. */
  lemma BrokenMarkerNeverMentioned(text: string, marker: string)
    requires '\n' in marker
    ensures !Mentions(text, marker)
  {
    forall j | 0 <= j < |Lines(text)| ensures !Contains(Lines(text)[j], marker) {
      BreakSpreads(Lines(text)[j], marker);
    }
  }

  /** With a line break in the namespace the scan never finds the marker,
      so every start appends the entry once more. */
  lemma RepopulatingGrows(content: string, namespace: string, url: string, title: string)
    requires '\n' in namespace
    ensures var once := Populated(content, namespace, url, title);
            Populated(once, namespace, url, title) == once + "\n" + Entry(namespace, url, title) + "\n"
  {
    var m := Marker(namespace);
    var p :| 0 <= p < |namespace| && namespace[p] == '\n';
    assert m[p] == '\n';
    BrokenMarkerNeverMentioned(Populated(content, namespace, url, title), m);
  }

  /** What the start service does with one call. */
  datatype StartOutcome = StartOutcome(response: Option<Response>, started: Option<Option<Obj>>)

  /** `UIcallee.handleCall`: a call whose process URI starts with
      `namespace + "startUI"` runs `executeStartUI` with the call's involved
      user and succeeds; any other call, and a null one, gives null and runs
      nothing. */
  function StartHandleCall(namespace: string, call: Option<Call>): (out: StartOutcome)
    ensures out.response.Some? <==>
              call.Some? && call.value.processURI.Some? && StartsWith(call.value.processURI.value, namespace + START_SUFFIX)
    ensures out.started.Some? <==> out.response.Some?
    ensures out.response.Some? ==> out.response.value == Response(Succeeded, [])
    ensures out.started.Some? ==> out.started.value == call.value.involvedUser
  {
    if call.Some? && call.value.processURI.Some? && StartsWith(call.value.processURI.value, namespace + START_SUFFIX) then
      StartOutcome(Some(Response(Succeeded, [])), Some(call.value.involvedUser))
    else
      StartOutcome(None, None)
  }
}
