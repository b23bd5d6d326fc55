/**
  The default HTML conventions: label text from a property name, the checkbox rule, and
  the modifiers that give every tag its id and name and every invalid input its
  validation class.
 */
module DefaultConventions {
  import opened Wrappers
  import opened Text
  import opened HtmlTags
  import ModelBinding

  // ---- BreakUpCamelCase ----

  predicate IsLower(c: char) { 'a' <= c <= 'z' }
  predicate IsUpper(c: char) { 'A' <= c <= 'Z' }
  predicate IsLetter(c: char) { IsLower(c) || IsUpper(c) }
  predicate IsDigit(c: char) { '0' <= c <= '9' }

  /** The three two-character patterns `([a-z])([A-Z])`, `([0-9])([a-zA-Z])`, `([a-zA-Z])([0-9])`. */
  datatype Pattern = LowerUpper | DigitLetter | LetterDigit

  predicate Matches(p: Pattern, a: char, b: char) {
    match p
    case LowerUpper => IsLower(a) && IsUpper(b)
    case DigitLetter => IsDigit(a) && IsLetter(b)
    case LetterDigit => IsLetter(a) && IsDigit(b)
  }

  /**
    `Regex.Replace(s, pattern, "$1 $2")`: a left-to-right scan that, at each match, puts a
    space between its two characters and resumes after the match.
   */
  function InsertSpaces(s: string, p: Pattern): (r: string)
    ensures |r| >= |s|
    ensures |s| > 0 ==> |r| > 0 && r[0] == s[0]
    decreases |s|
  {
    if |s| < 2 then s
    else if Matches(p, s[0], s[1]) then [s[0], ' ', s[1]] + InsertSpaces(s[2..], p)
    else [s[0]] + InsertSpaces(s[1..], p)
  }

  /** `Replace('_', ' ')`. */
  function UnderscoresToSpaces(s: string): (r: string)
    ensures |r| == |s|
    ensures forall i | 0 <= i < |s| :: r[i] == if s[i] == '_' then ' ' else s[i]
  {
    seq(|s|, i requires 0 <= i < |s| => if s[i] == '_' then ' ' else s[i])
  }

  /** `BreakUpCamelCase`: the three passes in order, then underscores to spaces. */
  function BreakUpCamelCase(s: string): string {
    UnderscoresToSpaces(InsertSpaces(InsertSpaces(InsertSpaces(s, LowerUpper), DigitLetter), LetterDigit))
  }

  /** No two neighbouring characters match `p`. */
  predicate NoMatch(s: string, p: Pattern) {
    forall i | 0 <= i < |s| - 1 :: !Matches(p, s[i], s[i + 1])
  }

  /** A pass leaves no match of its own pattern: a match's second character never starts one. */
  lemma {:induction false} InsertSpacesClears(s: string, p: Pattern)
    ensures NoMatch(InsertSpaces(s, p), p)
    decreases |s|
  {
    if |s| >= 2 {
      if Matches(p, s[0], s[1]) {
        InsertSpacesClears(s[2..], p);
        var r := InsertSpaces(s[2..], p);
        assert |s[2..]| > 0 ==> r[0] == s[2];
        assert forall i | 3 <= i < |r| + 2 :: ([s[0], ' ', s[1]] + r)[i] == r[i - 3];
      } else {
        InsertSpacesClears(s[1..], p);
        var r := InsertSpaces(s[1..], p);
        assert r[0] == s[1];
        assert forall i | 1 <= i < |r| + 1 :: ([s[0]] + r)[i] == r[i - 1];
      }
    }
  }

  /** A pass creates no match of any pattern: it only puts spaces between characters. */
  lemma {:induction false} InsertSpacesKeeps(s: string, p: Pattern, q: Pattern)
    requires NoMatch(s, q)
    ensures NoMatch(InsertSpaces(s, p), q)
    decreases |s|
  {
    if |s| >= 2 {
      assert NoMatch(s[1..], q);
      if Matches(p, s[0], s[1]) {
        assert NoMatch(s[2..], q);
        InsertSpacesKeeps(s[2..], p, q);
        var r := InsertSpaces(s[2..], p);
        assert |s[2..]| > 0 ==> r[0] == s[2];
        assert forall i | 3 <= i < |r| + 2 :: ([s[0], ' ', s[1]] + r)[i] == r[i - 3];
      } else {
        InsertSpacesKeeps(s[1..], p, q);
        var r := InsertSpaces(s[1..], p);
        assert r[0] == s[1];
        assert forall i | 1 <= i < |r| + 1 :: ([s[0]] + r)[i] == r[i - 1];
      }
    }
  }

  lemma UnderscoresKeep(s: string, q: Pattern)
    requires NoMatch(s, q)
    ensures NoMatch(UnderscoresToSpaces(s), q)
  {
  }

  /** `t` is `s` with spaces inserted and nothing else changed. */
  predicate SpacesInserted(t: string, s: string)
    decreases |t|
  {
    if t == [] then s == []
    else
      (s != [] && t[0] == s[0] && SpacesInserted(t[1..], s[1..]))
      || (t[0] == ' ' && SpacesInserted(t[1..], s))
  }

  lemma {:induction false} SpacesInsertedLength(t: string, s: string)
    requires SpacesInserted(t, s)
    ensures |t| >= |s|
    decreases |t|
  {
    if t != [] {
      if s != [] && t[0] == s[0] && SpacesInserted(t[1..], s[1..]) {
        SpacesInsertedLength(t[1..], s[1..]);
      } else {
        SpacesInsertedLength(t[1..], s);
      }
    }
  }

  lemma {:induction false} SpacesInsertedTrans(t: string, u: string, s: string)
    requires SpacesInserted(t, u) && SpacesInserted(u, s)
    ensures SpacesInserted(t, s)
    decreases |t|
  {
    if t != [] {
      if u != [] && t[0] == u[0] && SpacesInserted(t[1..], u[1..]) {
        if s != [] && u[0] == s[0] && SpacesInserted(u[1..], s[1..]) {
          SpacesInsertedTrans(t[1..], u[1..], s[1..]);
        } else {
          SpacesInsertedTrans(t[1..], u[1..], s);
        }
      } else {
        SpacesInsertedTrans(t[1..], u, s);
      }
    }
  }

  lemma {:induction false} SpacesInsertedRefl(s: string)
    ensures SpacesInserted(s, s)
    decreases |s|
  {
    if s != [] {
      SpacesInsertedRefl(s[1..]);
    }
  }

  lemma {:induction false} InsertSpacesOnlyInserts(s: string, p: Pattern)
    ensures SpacesInserted(InsertSpaces(s, p), s)
    decreases |s|
  {
    if |s| < 2 {
      SpacesInsertedRefl(s);
    } else if Matches(p, s[0], s[1]) {
      InsertSpacesOnlyInserts(s[2..], p);
      var r := InsertSpaces(s[2..], p);
      var t := [s[0], ' ', s[1]] + r;
      assert t[3..] == r && s[1..][1..] == s[2..] && t[2..][1..] == t[3..] && t[1..][1..] == t[2..];
      assert SpacesInserted(t[2..], s[1..]);
      assert SpacesInserted(t[1..], s[1..]);
    } else {
      InsertSpacesOnlyInserts(s[1..], p);
      assert ([s[0]] + InsertSpaces(s[1..], p))[1..] == InsertSpaces(s[1..], p);
    }
  }

  lemma {:induction false} UnderscoresCommute(t: string, s: string)
    requires SpacesInserted(t, s)
    ensures SpacesInserted(UnderscoresToSpaces(t), UnderscoresToSpaces(s))
    decreases |t|
  {
    if t != [] {
      assert UnderscoresToSpaces(t)[1..] == UnderscoresToSpaces(t[1..]);
      if s != [] && t[0] == s[0] && SpacesInserted(t[1..], s[1..]) {
        UnderscoresCommute(t[1..], s[1..]);
        assert UnderscoresToSpaces(s)[1..] == UnderscoresToSpaces(s[1..]);
      } else {
        UnderscoresCommute(t[1..], s);
      }
    }
  }

  /**
    `BreakUpCamelCase` leaves no '_', no lower-case letter before an upper-case one, no
    digit next to a letter either way round, and is the input with underscores turned
    into spaces and further spaces inserted, so never shorter.
   */
  lemma BreakUpCamelCaseSpec(s: string)
    ensures forall i | 0 <= i < |BreakUpCamelCase(s)| :: BreakUpCamelCase(s)[i] != '_'
    ensures NoMatch(BreakUpCamelCase(s), LowerUpper)
    ensures NoMatch(BreakUpCamelCase(s), DigitLetter)
    ensures NoMatch(BreakUpCamelCase(s), LetterDigit)
    ensures SpacesInserted(BreakUpCamelCase(s), UnderscoresToSpaces(s))
    ensures |BreakUpCamelCase(s)| >= |s|
  {
    var a := InsertSpaces(s, LowerUpper);
    var b := InsertSpaces(a, DigitLetter);
    var c := InsertSpaces(b, LetterDigit);
    InsertSpacesClears(s, LowerUpper);
    InsertSpacesClears(a, DigitLetter);
    InsertSpacesClears(b, LetterDigit);
    InsertSpacesKeeps(a, DigitLetter, LowerUpper);
    InsertSpacesKeeps(b, LetterDigit, LowerUpper);
    InsertSpacesKeeps(b, LetterDigit, DigitLetter);
    UnderscoresKeep(c, LowerUpper);
    UnderscoresKeep(c, DigitLetter);
    UnderscoresKeep(c, LetterDigit);
    InsertSpacesOnlyInserts(s, LowerUpper);
    InsertSpacesOnlyInserts(a, DigitLetter);
    InsertSpacesOnlyInserts(b, LetterDigit);
    SpacesInsertedTrans(b, a, s);
    SpacesInsertedTrans(c, b, s);
    UnderscoresCommute(c, s);
    SpacesInsertedLength(BreakUpCamelCase(s), UnderscoresToSpaces(s));
  }

  // ---- Small rules ----

  /** `HasValue`: neither null nor empty. */
  predicate HasValue(s: Option<string>) {
    s.Some? && s.value != ""
  }

  /** The checkbox rule: the attempted value's text before its first ',' is "True", else the bound value. */
  predicate IsChecked(attempted: Option<string>, bound: bool) {
    if attempted.Some? then BeforeFirst(attempted.value, ',') == "True" else bound
  }

  /** Only the attempted value's first piece counts: what follows a ',' is ignored. */
  lemma IsCheckedFirstPiece(first: string, rest: string, bound: bool)
    requires ',' !in first
    ensures IsChecked(Some(first + "," + rest), bound) <==> first == "True"
  {
    assert first + "," + rest == first + ("," + rest);
    BeforeFirstAppend(first, "," + rest, ',');
  }

  lemma {:induction false} BeforeFirstAppend(a: string, b: string, c: char)
    requires c !in a && |b| > 0 && b[0] == c
    ensures BeforeFirst(a + b, c) == a
    decreases |a|
  {
    if a != [] {
      assert (a + b)[1..] == a[1..] + b;
      BeforeFirstAppend(a[1..], b, c);
    } else {
      assert a + b == b;
    }
  }

  /** The checkbox builder: a checked-or-not checkbox valued true, followed by a hidden false under the field's name. */
  function BuildCheckbox(attempted: Option<string>, bound: bool, name: Option<string>): (r: (Element, Element))
    ensures r.0.tagName == "input" && "type" in r.0.attrs && "value" in r.0.attrs
    ensures r.0.attrs["type"] == "checkbox" && r.0.attrs["value"] == BoolText(true)
    ensures ("checked" in r.0.attrs) <==> IsChecked(attempted, bound)
    ensures r.1.tagName == "input" && "type" in r.1.attrs && "value" in r.1.attrs
    ensures r.1.attrs["type"] == "hidden" && r.1.attrs["value"] == BoolText(false)
    ensures ("name" in r.1.attrs) <==> name.Some?
    ensures name.Some? ==> r.1.attrs["name"] == name.value
  {
    var box := WithAttr(Tag("input"), "type", Some("checkbox"));
    var check := WithAttr(WithAttr(box, "checked", if IsChecked(attempted, bound) then Some("true") else None), "value", Some(BoolText(true)));
    var hidden := WithAttr(WithAttr(WithAttr(Tag("input"), "type", Some("hidden")), "name", name), "value", Some(BoolText(false)));
    (check, hidden)
  }

  /** The label builder: `for` is the field id, the text the property name broken up. */
  function BuildLabel(id: Option<string>, propertyName: string): (r: Element)
    ensures r.tagName == "label" && r.text == BreakUpCamelCase(propertyName)
    ensures ("for" in r.attrs) <==> id.Some?
    ensures id.Some? ==> r.attrs["for"] == id.value
  {
    WithAttr(Tag("label"), "for", id).(text := BreakUpCamelCase(propertyName))
  }

  /**
    The valued-input builder behind the textbox (type "text") and the DataAnnotations hidden
    input (type "hidden"): valued with the attempted value, else the bound value, and with no
    value attribute when both are null.
   */
  function ValuedInput(inputType: string, attempted: Option<string>, bound: Option<string>): (r: Element)
    ensures r.tagName == "input" && "type" in r.attrs && r.attrs["type"] == inputType
    ensures ("value" in r.attrs) <==> attempted.Some? || bound.Some?
    ensures attempted.Some? ==> r.attrs["value"] == attempted.value
    ensures attempted.None? && bound.Some? ==> r.attrs["value"] == bound.value
  {
    WithAttr(WithAttr(Tag("input"), "type", Some(inputType)), "value", if attempted.Some? then attempted else bound)
  }

  /** The display builder: a span holding the bound value as text, a null value rendering as "". */
  function BuildDisplay(bound: Option<string>): (r: Element)
    ensures r.tagName == "span" && r.attrs == map[] && r.children == []
    ensures r.text == bound.GetOr("")
  {
    Tag("span").(text := bound.GetOr(""))
  }

  /** The id a tag ends with: the request's id if it has a value, else the tag's own if it has one. */
  function ChooseId(requestId: Option<string>, existing: Option<string>): (r: Option<string>)
    ensures r.Some? <==> HasValue(requestId) || HasValue(existing)
    ensures HasValue(requestId) ==> r == requestId
    ensures !HasValue(requestId) ==> r == (if HasValue(existing) then existing else None)
  {
    if HasValue(requestId) then requestId else if HasValue(existing) then existing else None
  }

  /** The name an input ends with: the request's name whenever it is not null, even if empty. */
  function ChooseName(requestName: Option<string>, existing: Option<string>): (r: Option<string>)
    ensures requestName.Some? ==> r == requestName
    ensures requestName.None? ==> r == (if HasValue(existing) then existing else None)
  {
    if requestName.Some? then requestName else if HasValue(existing) then existing else None
  }

  /** Running the id and name rules again changes nothing. */
  lemma ChooseIdempotent(requestId: Option<string>, requestName: Option<string>, existingId: Option<string>, existingName: Option<string>)
    ensures ChooseId(requestId, ChooseId(requestId, existingId)) == ChooseId(requestId, existingId)
    ensures ChooseName(requestName, ChooseName(requestName, existingName)) == ChooseName(requestName, existingName)
  {
  }

  /** The id/name modifier every tag receives; `name` is written on input elements only. */
  method ModifyIdAndName(h: HtmlTag, requestId: Option<string>, requestName: Option<string>)
    modifies h
    ensures h.tagName == old(h.tagName) && h.classes == old(h.classes) && h.text == old(h.text) && h.children == old(h.children)
    ensures h.GetAttr("id") == ChooseId(requestId, old(h.GetAttr("id")))
    ensures h.IsInputElement() ==> h.GetAttr("name") == ChooseName(requestName, old(h.GetAttr("name")))
    ensures forall k | k != "id" && (k != "name" || !h.IsInputElement()) :: h.GetAttr(k) == old(h.GetAttr(k))
  {
    h.Attr("id", ChooseId(requestId, h.GetAttr("id")));
    if h.IsInputElement() {
      h.Attr("name", ChooseName(requestName, h.GetAttr("name")));
    }
  }

  /** A derived id: `r.Id + "_" + suffix`, a null id concatenating as "" (suffix "Label" or "Display"). */
  function SuffixedId(id: Option<string>, suffix: string): (r: string)
    ensures |r| == |id.GetOr("")| + 1 + |suffix|
    ensures r[..|id.GetOr("")|] == id.GetOr("") && r[|id.GetOr("")|] == '_' && r[|id.GetOr("")| + 1..] == suffix
  {
    id.GetOr("") + "_" + suffix
  }

  /** Label and display ids determine the field id they come from, a null id reading as ""; they never clash. */
  lemma DerivedIdsDetermineId(a: Option<string>, b: Option<string>)
    ensures SuffixedId(a, "Label") == SuffixedId(b, "Label") ==> a.GetOr("") == b.GetOr("")
    ensures SuffixedId(a, "Display") == SuffixedId(b, "Display") ==> a.GetOr("") == b.GetOr("")
    ensures SuffixedId(a, "Label") != SuffixedId(b, "Display")
  {
    var la, lb := SuffixedId(a, "Label"), SuffixedId(b, "Label");
    var da, db := SuffixedId(a, "Display"), SuffixedId(b, "Display");
    if la == lb {
      assert a.GetOr("") == la[..|la| - 6];
      assert b.GetOr("") == lb[..|lb| - 6];
    }
    if da == db {
      assert a.GetOr("") == da[..|da| - 8];
      assert b.GetOr("") == db[..|db| - 8];
    }
    assert la[|la| - 1] == 'l';
    assert db[|db| - 1] == 'y';
  }

  /** The label and display id modifiers: the tag's id becomes the derived id; nothing else changes. */
  method ModifySuffixedId(h: HtmlTag, id: Option<string>, suffix: string)
    modifies h
    ensures h.Snapshot() == WithAttr(old(h.Snapshot()), "id", Some(SuffixedId(id, suffix)))
  {
    h.Attr("id", Some(SuffixedId(id, suffix)));
  }

  const ValidationInputCssClassName := "input-validation-error"

  /** Whether an input gets the validation class: its model-state entry has errors. */
  predicate HasErrors(modelState: map<string, ModelBinding.ModelStateEntry>, name: string) {
    name in modelState && |modelState[name].errors| > 0
  }

  /**
    The validation-class modifier. Looking up a null name throws `ArgumentNullException`;
    otherwise the class is added exactly when the field's entry has errors.
   */
  method ModifyValidationClass(h: HtmlTag, name: Option<string>, modelState: map<string, ModelBinding.ModelStateEntry>)
    returns (error: Option<Exception>)
    modifies h
    ensures name.None? ==> error == Some(ArgumentNull("key")) && h.Snapshot() == old(h.Snapshot())
    ensures name.Some? ==> error.None?
    ensures name.Some? && HasErrors(modelState, name.value) ==>
      h.Snapshot() == old(h.Snapshot()).(classes := old(h.classes) + {ValidationInputCssClassName})
    ensures name.Some? && !HasErrors(modelState, name.value) ==> h.Snapshot() == old(h.Snapshot())
  {
    if name.None? {
      return Some(ArgumentNull("key"));
    }
    if HasErrors(modelState, name.value) {
      h.AddClass(ValidationInputCssClassName);
    }
    return None;
  }
}
