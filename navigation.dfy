/**
 * The slide player of moduleController.js: the `$scope.module` record,
 * with its page and section counters, the loaded content and the lookup
 * maps built from it, and the quiz answer shown for a clicked option.
 *
 * Where the source would throw (reading a field of `undefined`), a method
 * returns `ok == false`; whatever the source assigned before the throw
 * stays assigned.
 */
module Navigation {
  import opened Wrappers

  /** One answer of a quiz slide. */
  datatype QuizOption = QuizOption(text: string, feedback: string, correct: bool)

  /** A slide; `content` stands for the rest of its JSON, `options` is missing on a plain slide. */
  datatype Slide = Slide(content: string, options: Option<seq<QuizOption>>)

  /** One entry of the loaded module document. */
  datatype Section = Section(sectionName: string, slides: seq<Slide>)

  /** The module a URL path selects. */
  datatype ModuleChoice = NoModule | Authentication | Phishing

  /** `slides[page - 1]`, or `undefined` when that index is outside the array. */
  function SlideAt(slides: seq<Slide>, page: int): (r: Option<Slide>)
    ensures r.Some? ==> r.value in slides
    ensures r.None? <==> page < 1 || |slides| < page
  {
    if 1 <= page <= |slides| then Some(slides[page - 1]) else None
  }

  function OptionText(o: QuizOption): string { o.text }

  function SectionNameOf(s: Section): string { s.sectionName }

  /** The last index whose key is `x`, or -1 when there is none. */
  function LastIndexOf<T>(s: seq<T>, key: T -> string, x: string): (k: int)
    ensures -1 <= k < |s|
    ensures 0 <= k ==> key(s[k]) == x
    ensures forall j :: k < j < |s| ==> key(s[j]) != x
    decreases |s|
  {
    if s == [] then -1
    else if key(s[|s| - 1]) == x then |s| - 1
    else LastIndexOf(s[..|s| - 1], key, x)
  }

  /** Looking at one more element: it wins when its key matches. */
  lemma LastIndexOfExtend<T>(s: seq<T>, key: T -> string, x: string, i: int)
    requires 0 <= i < |s|
    ensures LastIndexOf(s[..i + 1], key, x) == if key(s[i]) == x then i else LastIndexOf(s[..i], key, x)
  {
    assert s[..i + 1][..i] == s[..i];
  }

  /** `sectionNames` as the load loop fills it for the first `n` sections. */
  function SectionNamesUpTo(data: seq<Section>, n: int): map<int, string>
    requires 0 <= n <= |data|
  {
    map i | 0 <= i < n :: data[i].sectionName
  }

  lemma NamesStep(names: map<int, string>, data: seq<Section>, i: int)
    requires 0 <= i < |data|
    ensures (names + SectionNamesUpTo(data, i))[i := data[i].sectionName] == names + SectionNamesUpTo(data, i + 1)
  {
    var lhs := (names + SectionNamesUpTo(data, i))[i := data[i].sectionName];
    var rhs := names + SectionNamesUpTo(data, i + 1);
    assert lhs.Keys == rhs.Keys;
  }

  lemma ScriptsStep(scripts: map<string, seq<Slide>>, data: seq<Section>, i: int)
    requires 0 <= i < |data|
    ensures (scripts + ScriptsOf(data[..i]))[data[i].sectionName := data[i].slides] == scripts + ScriptsOf(data[..i + 1])
  {
    assert data[..i + 1][..i] == data[..i];
  }

  /** `scripts` as the load loop fills it: later sections overwrite earlier ones of the same name. */
  function ScriptsOf(data: seq<Section>): (scripts: map<string, seq<Slide>>)
    ensures |scripts| <= |data|
    decreases |data|
  {
    if data == [] then map[]
    else ScriptsOf(data[..|data| - 1])[data[|data| - 1].sectionName := data[|data| - 1].slides]
  }

  /** The names in `scripts` are exactly the names of the loaded sections. */
  lemma {:induction false} ScriptsOfKeys(data: seq<Section>)
    ensures ScriptsOf(data).Keys == set i | 0 <= i < |data| :: data[i].sectionName
    decreases |data|
  {
    if data != [] {
      var front := data[..|data| - 1];
      ScriptsOfKeys(front);
      assert forall i :: 0 <= i < |front| ==> front[i] == data[i];
      assert (set i | 0 <= i < |data| :: data[i].sectionName)
          == (set i | 0 <= i < |front| :: front[i].sectionName) + {data[|data| - 1].sectionName};
    }
  }

  /** `scripts[name]` holds the slides of the last section with that name. */
  lemma {:induction false} ScriptsOfLastWins(data: seq<Section>, name: string)
    ensures name in ScriptsOf(data) <==> LastIndexOf(data, SectionNameOf, name) >= 0
    ensures name in ScriptsOf(data) ==> ScriptsOf(data)[name] == data[LastIndexOf(data, SectionNameOf, name)].slides
    decreases |data|
  {
    if data != [] {
      ScriptsOfLastWins(data[..|data| - 1], name);
    }
  }

  /** With distinct section names, `scripts` gives every section its own slides. */
  lemma ScriptsOfDistinct(data: seq<Section>, i: int)
    requires 0 <= i < |data|
    requires forall j, k :: 0 <= j < k < |data| ==> data[j].sectionName != data[k].sectionName
    ensures data[i].sectionName in ScriptsOf(data)
    ensures ScriptsOf(data)[data[i].sectionName] == data[i].slides
  {
    ScriptsOfLastWins(data, data[i].sectionName);
    assert SectionNameOf(data[i]) == data[i].sectionName;
  }

  /** `s.includes(t)`. */
  function Contains(s: string, t: string): (found: bool)
    ensures found ==> |t| <= |s|
    ensures |t| == 0 ==> found
    decreases |s|
  {
    (|t| <= |s| && s[..|t|] == t) || (|s| > 0 && Contains(s[1..], t))
  }

  /** `t` occurs in `s` starting at index `i`. */
  ghost predicate OccursAt(s: string, t: string, i: int)
  {
    0 <= i <= |s| - |t| && s[i..i + |t|] == t
  }

  /** `t` occurs in `s` at some position. */
  ghost predicate HasSubstring(s: string, t: string)
  {
    exists i :: OccursAt(s, t, i)
  }

  /** An index where `t` occurs, found by following `Contains`. */
  lemma {:induction false} ContainsSound(s: string, t: string) returns (i: int)
    requires Contains(s, t)
    ensures OccursAt(s, t, i)
    decreases |s|
  {
    if |t| <= |s| && s[..|t|] == t {
      i := 0;
      assert s[0..0 + |t|] == s[..|t|];
    } else {
      var j := ContainsSound(s[1..], t);
      assert s[1..][j..j + |t|] == s[j + 1..j + 1 + |t|];
      i := j + 1;
    }
  }

  /** Every occurrence of `t` is found by `Contains`. */
  lemma {:induction false} ContainsComplete(s: string, t: string, i: int)
    requires OccursAt(s, t, i)
    ensures Contains(s, t)
    decreases i
  {
    if i == 0 {
      assert s[..|t|] == s[0..0 + |t|];
    } else {
      assert s[1..][i - 1..i - 1 + |t|] == s[i..i + |t|];
      ContainsComplete(s[1..], t, i - 1);
    }
  }

  /** `Contains` agrees with the definition of a substring. */
  lemma ContainsIff(s: string, t: string)
    ensures Contains(s, t) <==> HasSubstring(s, t)
  {
    if Contains(s, t) {
      var i := ContainsSound(s, t);
    }
    if HasSubstring(s, t) {
      var i :| OccursAt(s, t, i);
      ContainsComplete(s, t, i);
    }
  }

  /** The module a path selects: "auth" wins over "phishing". */
  function SelectModule(path: string): (c: ModuleChoice)
    ensures c == Authentication <==> HasSubstring(path, "auth")
    ensures c == Phishing <==> !HasSubstring(path, "auth") && HasSubstring(path, "phishing")
  {
    ContainsIff(path, "auth");
    ContainsIff(path, "phishing");
    if Contains(path, "auth") then Authentication
    else if Contains(path, "phishing") then Phishing
    else NoModule
  }

  class ModuleScope {
    var name: string
    var pageNumber: int
    var json: seq<Section>
    var scripts: map<string, seq<Slide>>
    var sectionNames: map<int, string>
    var sectionNumber: int
    var section: string
    var length: int
    var slide: Slide
    var displayAnswer: bool
    var response: string
    var responseCorrect: bool
    var currentSlide: Option<Slide>

    /** The initial `$scope.module`; `json` starts as an empty string, which indexes like an empty array. */
    constructor ()
      ensures name == "" && pageNumber == 1 && json == [] && scripts == map[] && sectionNames == map[]
      ensures sectionNumber == 0 && section == "" && length == 10 && slide == Slide("", None)
      ensures !displayAnswer && response == "" && !responseCorrect && currentSlide == None
    {
      name := "";
      pageNumber := 1;
      json := [];
      scripts := map[];
      sectionNames := map[];
      sectionNumber := 0;
      section := "";
      length := 10;
      slide := Slide("", None);
      displayAnswer := false;
      response := "";
      responseCorrect := false;
      currentSlide := None;
    }

    /**
     * The player shows a real slide: the counters name a loaded section,
     * `section` and `length` describe that section, and the page is one of
     * its slides.
     */
    ghost predicate OnValidSlide()
      reads this
    {
      && 1 <= sectionNumber <= |json|
      && section == json[sectionNumber - 1].sectionName
      && length == |json[sectionNumber - 1].slides|
      && 1 <= pageNumber <= length
    }

    /** Selects the module from the URL path; returns the document to fetch. */
    method SelectFromPath(path: string) returns (jsonSrc: string)
      modifies this`name
      ensures SelectModule(path) == Authentication ==> name == "Authentication" && jsonSrc == "/module_text/auth.json"
      ensures SelectModule(path) == Phishing ==> name == "Phishing" && jsonSrc == "/module_text/phishing.json"
      ensures SelectModule(path) == NoModule ==> name == old(name) && jsonSrc == ""
    {
      jsonSrc := "";
      if Contains(path, "auth") {
        name := "Authentication";
        jsonSrc := "/module_text/auth.json";
      } else if Contains(path, "phishing") {
        name := "Phishing";
        jsonSrc := "/module_text/phishing.json";
      }
    }

    /**
     * The fetch callback: stores the document, fills `sectionNames` and
     * `scripts` section by section, then advances to the next section.
     */
    method Load(data: seq<Section>) returns (ok: bool)
      modifies this`json, this`sectionNames, this`scripts
      modifies this`section, this`length, this`pageNumber, this`sectionNumber, this`currentSlide
      ensures json == data
      ensures sectionNames == old(sectionNames) + SectionNamesUpTo(data, |data|)
      ensures scripts == old(scripts) + ScriptsOf(data)
      ensures var i := old(sectionNumber);
        if 0 <= i < |data| then
          && ok && section == data[i].sectionName && length == |data[i].slides|
          && pageNumber == 1 && sectionNumber == i + 1 && currentSlide == SlideAt(data[i].slides, 1)
        else
          && !ok && section == old(section) && length == old(length) && pageNumber == old(pageNumber)
          && sectionNumber == i && currentSlide == old(currentSlide)
    {
      json := data;
      FillLookups(data);
      ok := NextSection();
    }

    /** The load loop: `sectionNames[i]` and `scripts[data[i].sectionName]` for each section in turn. */
    method FillLookups(data: seq<Section>)
      modifies this`sectionNames, this`scripts
      ensures sectionNames == old(sectionNames) + SectionNamesUpTo(data, |data|)
      ensures scripts == old(scripts) + ScriptsOf(data)
    {
      ghost var names0, scripts0 := sectionNames, scripts;
      for i := 0 to |data|
        invariant sectionNames == names0 + SectionNamesUpTo(data, i)
        invariant scripts == scripts0 + ScriptsOf(data[..i])
      {
        NamesStep(names0, data, i);
        ScriptsStep(scripts0, data, i);
        sectionNames := sectionNames[i := data[i].sectionName];
        scripts := scripts[data[i].sectionName := data[i].slides];
      }
      assert data[..|data|] == data;
    }

    /** `json[sectionNumber - 1].slides[pageNumber - 1]` becomes the current slide. */
    method DisplayPageContent() returns (ok: bool)
      modifies this`currentSlide
      ensures ok == (1 <= sectionNumber <= |json|)
      ensures ok ==> currentSlide == SlideAt(json[sectionNumber - 1].slides, pageNumber)
      ensures !ok ==> currentSlide == old(currentSlide)
      ensures OnValidSlide() ==> ok && currentSlide == Some(json[sectionNumber - 1].slides[pageNumber - 1])
    {
      if 1 <= sectionNumber <= |json| {
        currentSlide := SlideAt(json[sectionNumber - 1].slides, pageNumber);
        ok := true;
      } else {
        ok := false;
      }
    }

    /** Back one slide; nothing happens on the first page. */
    method DecrementPage() returns (ok: bool)
      modifies this`pageNumber, this`currentSlide
      ensures old(pageNumber) == 1 ==> ok && pageNumber == 1 && currentSlide == old(currentSlide)
      ensures old(pageNumber) != 1 ==> pageNumber == old(pageNumber) - 1 && ok == (1 <= sectionNumber <= |json|)
      ensures old(pageNumber) != 1 && ok ==> currentSlide == SlideAt(json[sectionNumber - 1].slides, pageNumber)
      ensures !ok ==> currentSlide == old(currentSlide)
      ensures old(OnValidSlide()) ==> OnValidSlide() && ok
    {
      if pageNumber == 1 {
        return true;
      }
      pageNumber := pageNumber - 1;
      ok := DisplayPageContent();
    }

    /** Forward one slide; nothing happens once the page reaches `length`. */
    method IncrementPage() returns (ok: bool)
      modifies this`pageNumber, this`currentSlide
      ensures old(pageNumber) >= length ==> ok && pageNumber == old(pageNumber) && currentSlide == old(currentSlide)
      ensures old(pageNumber) < length ==> pageNumber == old(pageNumber) + 1 && ok == (1 <= sectionNumber <= |json|)
      ensures old(pageNumber) < length && ok ==> currentSlide == SlideAt(json[sectionNumber - 1].slides, pageNumber)
      ensures !ok ==> currentSlide == old(currentSlide)
      ensures old(OnValidSlide()) ==> OnValidSlide() && ok
    {
      if pageNumber >= length {
        return true;
      }
      pageNumber := pageNumber + 1;
      ok := DisplayPageContent();
    }

    /** To the first slide of the following section, read at the old 0-based index `sectionNumber`. */
    method NextSection() returns (ok: bool)
      modifies this`section, this`length, this`pageNumber, this`sectionNumber, this`currentSlide
      ensures var i := old(sectionNumber);
        if 0 <= i < |json| then
          && ok && section == json[i].sectionName && length == |json[i].slides|
          && pageNumber == 1 && sectionNumber == i + 1 && currentSlide == SlideAt(json[i].slides, 1)
        else
          && !ok && section == old(section) && length == old(length) && pageNumber == old(pageNumber)
          && sectionNumber == i && currentSlide == old(currentSlide)
      ensures old(OnValidSlide()) && old(sectionNumber) < |json| && |json[old(sectionNumber)].slides| > 0 ==> OnValidSlide()
    {
      if !(0 <= sectionNumber < |json|) {
        return false;
      }
      section := json[sectionNumber].sectionName;
      length := |json[sectionNumber].slides|;
      pageNumber := 1;
      sectionNumber := sectionNumber + 1;
      ok := DisplayPageContent();
    }

    /**
     * As written: reads `json[sectionNumber]` (the section after the current
     * one) before stepping the counter back.
     */
    method PrevSection() returns (ok: bool)
      modifies this`section, this`length, this`pageNumber, this`sectionNumber, this`currentSlide
      ensures var i := old(sectionNumber);
        if 0 <= i < |json| then
          && section == json[i].sectionName && length == |json[i].slides|
          && pageNumber == 1 && sectionNumber == i - 1
          && ok == (i >= 2)
          && currentSlide == (if i >= 2 then SlideAt(json[i - 2].slides, 1) else old(currentSlide))
        else
          && !ok && section == old(section) && length == old(length) && pageNumber == old(pageNumber)
          && sectionNumber == i && currentSlide == old(currentSlide)
    {
      if !(0 <= sectionNumber < |json|) {
        return false;
      }
      section := json[sectionNumber].sectionName;
      length := |json[sectionNumber].slides|;
      pageNumber := 1;
      sectionNumber := sectionNumber - 1;
      ok := DisplayPageContent();
    }

    /** Corrected: back to the first slide of the previous section, read at `sectionNumber - 2`. */
    method PrevSectionIntended() returns (ok: bool)
      modifies this`section, this`length, this`pageNumber, this`sectionNumber, this`currentSlide
      ensures var i := old(sectionNumber);
        if 2 <= i <= |json| + 1 then
          && ok && section == json[i - 2].sectionName && length == |json[i - 2].slides|
          && pageNumber == 1 && sectionNumber == i - 1 && currentSlide == SlideAt(json[i - 2].slides, 1)
        else
          && !ok && section == old(section) && length == old(length) && pageNumber == old(pageNumber)
          && sectionNumber == i && currentSlide == old(currentSlide)
      ensures old(OnValidSlide()) && old(sectionNumber) >= 2 && |json[old(sectionNumber) - 2].slides| > 0 ==> OnValidSlide()
    {
      if !(2 <= sectionNumber <= |json| + 1) {
        return false;
      }
      section := json[sectionNumber - 2].sectionName;
      length := |json[sectionNumber - 2].slides|;
      pageNumber := 1;
      sectionNumber := sectionNumber - 1;
      ok := DisplayPageContent();
    }

    /** The section dropdown: `index` is 0-based, `name` looks up the slide count in `scripts`. */
    method SetSection(index: int, name: string) returns (ok: bool)
      modifies this`section, this`sectionNumber, this`pageNumber, this`length, this`currentSlide
      ensures section == name && sectionNumber == index + 1 && pageNumber == 1
      ensures name in scripts ==> length == |scripts[name]| && ok == (0 <= index < |json|)
      ensures name in scripts && ok ==> currentSlide == SlideAt(json[index].slides, 1)
      ensures name !in scripts ==> !ok && length == old(length)
      ensures !ok ==> currentSlide == old(currentSlide)
      ensures (0 <= index < |json| && name == json[index].sectionName && name in scripts
               && scripts[name] == json[index].slides && |json[index].slides| > 0) ==> OnValidSlide()
    {
      section := name;
      sectionNumber := index + 1;
      pageNumber := 1;
      if name !in scripts {
        return false;
      }
      length := |scripts[name]|;
      ok := DisplayPageContent();
    }

    /**
     * A click on a quiz option: the answer is shown, and the feedback comes
     * from the last option of the current slide whose text matches.
     */
    method SubmitResponse(clicked: QuizOption) returns (ok: bool)
      modifies this`displayAnswer, this`response, this`responseCorrect
      ensures displayAnswer
      ensures ok == slide.options.Some?
      ensures ok ==> var opts := slide.options.value;
        var k := LastIndexOf(opts, OptionText, clicked.text);
        if k >= 0 then response == opts[k].feedback && responseCorrect == opts[k].correct
        else response == old(response) && responseCorrect == old(responseCorrect)
      ensures !ok ==> response == old(response) && responseCorrect == old(responseCorrect)
    {
      displayAnswer := true;
      if slide.options.None? {
        return false;
      }
      ScanOptions(slide.options.value, clicked.text);
      ok := true;
    }

    /** The loop of the click handler over the options of the current slide. */
    method ScanOptions(opts: seq<QuizOption>, text: string)
      modifies this`response, this`responseCorrect
      ensures var k := LastIndexOf(opts, OptionText, text);
        if k >= 0 then response == opts[k].feedback && responseCorrect == opts[k].correct
        else response == old(response) && responseCorrect == old(responseCorrect)
    {
      var i := 0;
      ghost var k := -1;
      while i < |opts|
        invariant 0 <= i <= |opts|
        invariant k == LastIndexOf(opts[..i], OptionText, text)
        invariant k >= 0 ==> k < |opts| && response == opts[k].feedback && responseCorrect == opts[k].correct
        invariant k < 0 ==> response == old(response) && responseCorrect == old(responseCorrect)
      {
        LastIndexOfExtend(opts, OptionText, text, i);
        if text == opts[i].text {
          response := opts[i].feedback;
          responseCorrect := opts[i].correct;
          k := i;
        }
        i := i + 1;
      }
      assert opts[..|opts|] == opts;
    }
  }

  /**
   * Going back from the middle section of three, as written: the label and
   * slide count are those of the third section while the first is shown.
   */
  method PrevSectionMislabels() returns (title: string, count: int, shown: Option<Slide>)
    ensures title == "C" && count == 3
    ensures shown == Some(Slide("A1", None))
  {
    var m := new ModuleScope();
    var a := Section("A", [Slide("A1", None)]);
    var b := Section("B", [Slide("B1", None), Slide("B2", None)]);
    var c := Section("C", [Slide("C1", None), Slide("C2", None), Slide("C3", None)]);
    m.json := [a, b, c];
    m.sectionNumber, m.section, m.length, m.pageNumber := 2, "B", 2, 1;
    assert m.OnValidSlide();
    var ok := m.PrevSection();
    title, count, shown := m.section, m.length, m.currentSlide;
  }

  /** Going back from the last section, as written, throws: nothing moves. */
  method PrevSectionStuckOnLast() returns (ok: bool, sectionNumber: int)
    ensures !ok && sectionNumber == 2
  {
    var m := new ModuleScope();
    m.json := [Section("A", [Slide("A1", None)]), Section("B", [Slide("B1", None)])];
    m.sectionNumber, m.section, m.length, m.pageNumber := 2, "B", 1, 1;
    ok := m.PrevSection();
    sectionNumber := m.sectionNumber;
  }
}
