/**
 * The tag editor's token rule (handlers.go, `handleTagsMode`): each whitespace-separated
 * token of the buffer is a removal ("-name"), an addition ("+name" or "name"), or nothing
 * (a bare "-" or "+"); a name that fails validation aborts the whole edit.
 */
module Tags {
  import opened Wrappers
  import opened Text

  datatype Token = AddTag(name: string) | RemoveTag(name: string) | Ignored | Invalid(message: string)

  /** The name a token that does not start with '-' stands for: the token without one
      leading '+'. */
  function AddName(w: string): string {
    if |w| > 0 && w[0] == '+' then w[1..] else w
  }

  /** What one token contributes; `validate` is the tag-name validity check. */
  function Classify(w: string, validate: string -> Option<string>): (t: Token)
    ensures t.RemoveTag? <==> |w| > 1 && w[0] == '-' && validate(w[1..]).None?
    ensures t.RemoveTag? ==> t.name != "" && validate(t.name).None? && w == "-" + t.name
    ensures t.AddTag? <==> (w == [] || w[0] != '-') && AddName(w) != "" && validate(AddName(w)).None?
    ensures t.AddTag? ==> t.name != "" && validate(t.name).None? && t.name == AddName(w)
    ensures t.AddTag? ==> w == t.name || w == "+" + t.name
    ensures t.Ignored? <==> w == "-" || w == "+" || w == ""
    ensures t.Invalid? <==>
      if |w| > 0 && w[0] == '-' then |w| > 1 && validate(w[1..]).Some?
      else AddName(w) != "" && validate(AddName(w)).Some?
    ensures t.Invalid? && w[0] == '-' ==> t.message == "remove tag '" + w[1..] + "': " + validate(w[1..]).value
    ensures t.Invalid? && w[0] != '-' ==> t.message == "add tag '" + AddName(w) + "': " + validate(AddName(w)).value
  {
    if |w| > 0 && w[0] == '-' then
      if |w| > 1 then
        match validate(w[1..])
        case Some(e) => Invalid("remove tag '" + w[1..] + "': " + e)
        case None => RemoveTag(w[1..])
      else Ignored
    else
      var name := AddName(w);
      if name != "" then
        match validate(name)
        case Some(e) => Invalid("add tag '" + name + "': " + e)
        case None => AddTag(name)
      else Ignored
  }

  /** The three ways to write a valid name `n`: "-n" removes it, "+n" adds it, and so does
      plain "n" when `n` itself starts with neither sign. */
  lemma ClassifyNamed(n: string, validate: string -> Option<string>)
    requires n != "" && validate(n).None?
    ensures Classify("-" + n, validate) == RemoveTag(n)
    ensures Classify("+" + n, validate) == AddTag(n)
    ensures n[0] != '-' && n[0] != '+' ==> Classify(n, validate) == AddTag(n)
  {
    assert ("-" + n)[1..] == n && ("+" + n)[1..] == n;
  }

  /** The names to add and the names to remove, each in token order. */
  datatype TagPlan = TagPlan(adds: seq<string>, removes: seq<string>)

  predicate ValidNames(names: seq<string>, validate: string -> Option<string>) {
    forall i :: 0 <= i < |names| ==> names[i] != "" && validate(names[i]).None?
  }

  /** The tokens taken left to right; the first invalid token decides the error. */
  function PlanTags(words: seq<string>, validate: string -> Option<string>): (r: Result<TagPlan, string>)
    ensures r.Ok? ==> ValidNames(r.value.adds, validate) && ValidNames(r.value.removes, validate)
    ensures r.Ok? ==> |r.value.adds| + |r.value.removes| <= |words|
  {
    if words == [] then Ok(TagPlan([], []))
    else
      match PlanTags(words[..|words| - 1], validate)
      case Err(e) => Err(e)
      case Ok(p) =>
        match Classify(words[|words| - 1], validate)
        case Invalid(e) => Err(e)
        case Ignored => Ok(p)
        case AddTag(n) => Ok(p.(adds := p.adds + [n]))
        case RemoveTag(n) => Ok(p.(removes := p.removes + [n]))
  }

  /** The token loop of the tag editor: each token, left to right, is added to the names to
      add or to remove, or skipped; the first invalid name ends the loop with its error. */
  method CollectTags(words: seq<string>, validate: string -> Option<string>) returns (r: Result<TagPlan, string>)
    ensures r == PlanTags(words, validate)
  {
    var adds: seq<string> := [];
    var removes: seq<string> := [];
    for i := 0 to |words|
      invariant PlanTags(words[..i], validate) == Ok(TagPlan(adds, removes))
    {
      var w := words[i];
      assert words[..i + 1][..i] == words[..i];
      if |w| > 0 && w[0] == '-' {
        if |w| > 1 {
          var name := w[1..];
          var invalid := validate(name);
          if invalid.Some? {
            PrefixErrorPersists(words, i + 1, validate);
            return Err("remove tag '" + name + "': " + invalid.value);
          }
          removes := removes + [name];
        }
      } else {
        var name := w;
        if |name| > 0 && name[0] == '+' {
          name := name[1..];
        }
        if name != "" {
          var invalid := validate(name);
          if invalid.Some? {
            PrefixErrorPersists(words, i + 1, validate);
            return Err("add tag '" + name + "': " + invalid.value);
          }
          adds := adds + [name];
        }
      }
    }
    assert words[..|words|] == words;
    return Ok(TagPlan(adds, removes));
  }

  /** The names the addition tokens stand for, in token order. */
  function AddedNames(words: seq<string>, validate: string -> Option<string>): seq<string> {
    if words == [] then []
    else (match Classify(words[0], validate) case AddTag(n) => [n] case _ => []) + AddedNames(words[1..], validate)
  }

  /** The names the removal tokens stand for, in token order. */
  function RemovedNames(words: seq<string>, validate: string -> Option<string>): seq<string> {
    if words == [] then []
    else (match Classify(words[0], validate) case RemoveTag(n) => [n] case _ => []) + RemovedNames(words[1..], validate)
  }

  /** An accepted edit adds exactly the names of the addition tokens and removes exactly
      the names of the removal tokens, each list in the order the tokens were typed. */
  lemma {:induction false} PlanTagsNames(words: seq<string>, validate: string -> Option<string>)
    requires PlanTags(words, validate).Ok?
    ensures PlanTags(words, validate).value == TagPlan(AddedNames(words, validate), RemovedNames(words, validate))
  {
    if words != [] {
      var one, rest := [words[0]], words[1..];
      assert words == one + rest;
      PlanTagsAppend(one, rest, validate);
      PlanTagsOne(words[0], validate);
      PlanTagsNames(rest, validate);
      var q := PlanTags(rest, validate).value;
      match Classify(words[0], validate)
      case AddTag(n) => assert PlanTags(words, validate).value == TagPlan([n] + q.adds, [] + q.removes);
      case RemoveTag(n) => assert PlanTags(words, validate).value == TagPlan([] + q.adds, [n] + q.removes);
      case Ignored => assert PlanTags(words, validate).value == TagPlan([] + q.adds, [] + q.removes);
    }
  }

  /** The plan of a single token. */
  lemma PlanTagsOne(w: string, validate: string -> Option<string>)
    ensures PlanTags([w], validate) ==
      match Classify(w, validate)
      case Invalid(e) => Err(e)
      case Ignored => Ok(TagPlan([], []))
      case AddTag(n) => Ok(TagPlan([n], []))
      case RemoveTag(n) => Ok(TagPlan([], [n]))
  {
    var none: seq<string> := [];
    assert [w][..0] == none && [w][0] == w;
    assert PlanTags(none, validate) == Ok(TagPlan(none, none));
    match Classify(w, validate)
    case Invalid(e) =>
    case Ignored =>
    case AddTag(n) => assert none + [n] == [n];
    case RemoveTag(n) => assert none + [n] == [n];
  }

  /** Plans of two token lists put side by side; the left error wins. */
  function Join(a: Result<TagPlan, string>, b: Result<TagPlan, string>): Result<TagPlan, string> {
    match a
    case Err(e) => Err(e)
    case Ok(p) =>
      match b
      case Err(e) => Err(e)
      case Ok(q) => Ok(TagPlan(p.adds + q.adds, p.removes + q.removes))
  }

  /** Tokens are handled independently and in order. */
  lemma {:induction false} PlanTagsAppend(a: seq<string>, b: seq<string>, validate: string -> Option<string>)
    ensures PlanTags(a + b, validate) == Join(PlanTags(a, validate), PlanTags(b, validate))
    decreases |b|
  {
    if b == [] {
      assert a + b == a;
      match PlanTags(a, validate)
      case Err(_) =>
      case Ok(p) => assert p.adds + [] == p.adds && p.removes + [] == p.removes;
    } else {
      var b' := b[..|b| - 1];
      assert (a + b)[..|a + b| - 1] == a + b';
      assert (a + b)[|a + b| - 1] == b[|b| - 1];
      PlanTagsAppend(a, b', validate);
      match PlanTags(a, validate)
      case Err(_) =>
      case Ok(p) =>
        match PlanTags(b', validate)
        case Err(_) =>
        case Ok(q) =>
          match Classify(b[|b| - 1], validate)
          case Invalid(_) =>
          case Ignored =>
          case AddTag(n) => assert p.adds + (q.adds + [n]) == (p.adds + q.adds) + [n];
          case RemoveTag(n) => assert p.removes + (q.removes + [n]) == (p.removes + q.removes) + [n];
    }
  }

  /** Once a prefix of the tokens fails, the whole buffer fails with the same error:
      nothing after the first invalid name is looked at. */
  lemma PrefixErrorPersists(words: seq<string>, i: nat, validate: string -> Option<string>)
    requires i <= |words|
    requires PlanTags(words[..i], validate).Err?
    ensures PlanTags(words, validate) == PlanTags(words[..i], validate)
  {
    assert words == words[..i] + words[i..];
    PlanTagsAppend(words[..i], words[i..], validate);
  }

  /** The edit is rejected exactly when some token names an invalid tag. */
  lemma {:induction false} PlanTagsFailsIffInvalid(words: seq<string>, validate: string -> Option<string>)
    ensures PlanTags(words, validate).Err? <==>
            exists i :: 0 <= i < |words| && Classify(words[i], validate).Invalid?
  {
    if words != [] {
      var w := words[..|words| - 1];
      PlanTagsFailsIffInvalid(w, validate);
      if exists i :: 0 <= i < |w| && Classify(w[i], validate).Invalid? {
        var i :| 0 <= i < |w| && Classify(w[i], validate).Invalid?;
        assert words[i] == w[i];
      }
      if exists i :: 0 <= i < |words| && Classify(words[i], validate).Invalid? {
        var i :| 0 <= i < |words| && Classify(words[i], validate).Invalid?;
        if i < |w| { assert w[i] == words[i]; }
      }
    }
  }

  /** A bare "-" or "+" token changes nothing. */
  lemma BareSignIgnored(a: seq<string>, b: seq<string>, sign: string, validate: string -> Option<string>)
    requires sign == "-" || sign == "+"
    ensures PlanTags(a + [sign] + b, validate) == PlanTags(a + b, validate)
  {
    PlanTagsAppend(a + [sign], b, validate);
    PlanTagsAppend(a, [sign], validate);
    PlanTagsAppend(a, b, validate);
    assert [sign][..0] == [];
    match PlanTags(a, validate)
    case Err(_) =>
    case Ok(p) => assert p.adds + [] == p.adds && p.removes + [] == p.removes;
  }

  /** The buffer "+urgent -old" adds "urgent" and removes "old" when both names are valid. */
  lemma UrgentOldExample(validate: string -> Option<string>)
    requires validate("urgent").None? && validate("old").None?
    ensures PlanTags(Fields("+urgent -old"), validate) == Ok(TagPlan(["urgent"], ["old"]))
  {
    UrgentOldFields();
    UrgentOldPlan(validate);
  }

  lemma UrgentOldPlan(validate: string -> Option<string>)
    requires validate("urgent").None? && validate("old").None?
    ensures PlanTags(["+urgent", "-old"], validate) == Ok(TagPlan(["urgent"], ["old"]))
  {
    var add, remove := "+urgent", "-old";
    assert add[0] == '+' && add[1..] == "urgent";
    assert Classify(add, validate) == AddTag("urgent");
    assert remove[0] == '-' && remove[1..] == "old";
    assert Classify(remove, validate) == RemoveTag("old");
    var none: seq<string> := [];
    assert none + ["urgent"] == ["urgent"] && none + ["old"] == ["old"];
    var one, two := [add], [add, remove];
    assert one[..0] == [] && one[0] == add;
    assert PlanTags(one, validate) == Ok(TagPlan(["urgent"], []));
    assert two[..1] == one && two[1] == remove;
  }

  lemma UrgentOldFields()
    ensures Fields("+urgent -old") == ["+urgent", "-old"]
  {
    assert IsWord("-old");
    FieldsOfWordThen("-old", "");
    assert " -old"[1..] == "-old" && "-old" + "" == "-old";
    assert IsWord("+urgent");
    assert "+urgent" + " -old" == "+urgent -old";
    FieldsOfWordThen("+urgent", " -old");
  }
}
