/** Canonicalisation of caller-supplied levels and tags, and the choice between a
    supplied tag and an inferred one (services/taskScoringService.js, normalizeLevel,
    normalizeTag and classifyTaskTag). */
module Normalization {
  import opened Js
  import opened Outcomes
  import opened TaskDomain
  import opened Heuristics

  /** The numeric branch of normalizeLevel: `{ 1: 'low', 2: 'medium', 3: 'high' }[n]`,
      and an error for every other number. */
  function LevelOfNumber(n: int): (r: Result<Level, Failure>)
    ensures r.Ok? <==> 1 <= n <= 3
    ensures r.Ok? ==> Points(r.value) == n
    ensures r.Err? ==> r.error == InvalidNumericLevel(n)
  {
    if n == 1 then Ok(Level.Low)
    else if n == 2 then Ok(Medium)
    else if n == 3 then Ok(High)
    else Err(InvalidNumericLevel(n))
  }

  /** The string branch of normalizeLevel: the trimmed, lower-cased text must be a
      level name, and the error quotes the text as it was given. */
  function LevelOfText(s: string): (r: Result<Level, Failure>)
    ensures r.Ok? <==> ToLower(Trim(s)) in {"low", "medium", "high"}
    ensures r.Ok? ==> LevelName(r.value) == ToLower(Trim(s))
    ensures r.Err? ==> r.error == InvalidLevel(s)
  {
    match ParseLevelName(ToLower(Trim(s)))
    case Some(l) => Ok(l)
    case None => Err(InvalidLevel(s))
  }

  /** normalizeLevel: `undefined`/`null` give the fallback; the numbers 1, 2, 3 name
      the three levels; a string is trimmed and lower-cased and must then be a level
      name; every other kind of value is refused. */
  function NormalizeLevel(value: Json, fallback: Level): (r: Result<Level, Failure>)
    ensures Nullish(value) ==> r == Ok(fallback)
    ensures value.Num? ==> r == LevelOfNumber(value.n)
    ensures value.Str? ==> r == LevelOfText(value.s)
    ensures (value.Bool? || value.Arr? || value.Obj?) ==> r == Err(UnsupportedLevelType)
  {
    match value
    case Undefined => Ok(fallback)
    case Null => Ok(fallback)
    case Num(n) => LevelOfNumber(n)
    case Str(s) => LevelOfText(s)
    case _ => Err(UnsupportedLevelType)
  }

  /** What normalizeLevel accepts and what it gives: the fallback for an absent value;
      for a number, exactly 1, 2 and 3, giving the level worth that many points; for a
      string, exactly the spellings whose trimmed, lower-cased form is a level name,
      giving that level; and nothing else. */
  lemma NormalizeLevelMeaning(value: Json, fallback: Level)
    ensures var r := NormalizeLevel(value, fallback);
      && (Nullish(value) ==> r == Ok(fallback))
      && (value.Num? ==> (r.Ok? <==> 1 <= value.n <= 3)
                         && (r.Ok? ==> Points(r.value) == value.n)
                         && (r.Err? ==> r.error == InvalidNumericLevel(value.n)))
      && (value.Str? ==> (r.Ok? <==> ToLower(Trim(value.s)) in {"low", "medium", "high"})
                         && (r.Ok? ==> LevelName(r.value) == ToLower(Trim(value.s)))
                         && (r.Err? ==> r.error == InvalidLevel(value.s)))
      && ((value.Bool? || value.Arr? || value.Obj?) ==> r == Err(UnsupportedLevelType))
  {
  }

  /** A level's own name normalises back to that level, whatever the fallback: the
      outputs of normalizeLevel are fixed points of it. */
  lemma NormalizeLevelIdempotent(l: Level, fallback: Level)
    ensures NormalizeLevel(Str(LevelName(l)), fallback) == Ok(l)
  {
    var name := LevelName(l);
    TrimFixed(name);
    ToLowerFixed(name);
    assert ToLower(Trim(name)) == name;
    assert ParseLevelName(name) == Some(l);
    assert LevelOfText(name) == Ok(l);
  }

  /** The numeric and the textual spelling of a level agree: the level's points and
      its name normalise to the same level. */
  lemma NormalizeLevelNumericAgrees(l: Level, fallback: Level)
    ensures NormalizeLevel(Num(Points(l)), fallback) == NormalizeLevel(Str(LevelName(l)), fallback)
  {
    NormalizeLevelIdempotent(l, fallback);
    assert NormalizeLevel(Num(Points(l)), fallback) == Ok(l);
  }

  /** Surrounding whitespace does not matter: padding a spelling with whitespace
      leaves the result unchanged. */
  lemma NormalizeLevelPadded(pre: string, s: string, post: string, fallback: Level)
    requires forall i :: 0 <= i < |pre| ==> IsWhitespace(pre[i])
    requires forall i :: 0 <= i < |post| ==> IsWhitespace(post[i])
    requires s == [] || (!IsWhitespace(s[0]) && !IsWhitespace(s[|s| - 1]))
    ensures NormalizeLevel(Str(pre + s + post), fallback).Ok? <==> NormalizeLevel(Str(s), fallback).Ok?
    ensures NormalizeLevel(Str(pre + s + post), fallback).Ok? ==>
              NormalizeLevel(Str(pre + s + post), fallback) == NormalizeLevel(Str(s), fallback)
  {
    TrimPadded(pre, s, post);
    TrimFixed(s);
    assert Trim(pre + s + post) == Trim(s);
  }

  /** Trimming removes exactly the whitespace padding around a core that neither
      starts nor ends with whitespace. */
  lemma TrimPadded(pre: string, s: string, post: string)
    requires forall i :: 0 <= i < |pre| ==> IsWhitespace(pre[i])
    requires forall i :: 0 <= i < |post| ==> IsWhitespace(post[i])
    requires s == [] || (!IsWhitespace(s[0]) && !IsWhitespace(s[|s| - 1]))
    ensures Trim(pre + s + post) == s
  {
    var w := pre + s + post;
    var r := Trim(w);
    var i :| PaddedAt(w, r, i);
    if s != [] {
      // The core's first and last characters are not whitespace, so trimming
      // stops exactly at them.
      assert w[|pre|] == s[0];
      assert w[|pre| + |s| - 1] == s[|s| - 1];
      assert i == |pre|;
      assert |r| == |s|;
      assert r == w[|pre|..|pre| + |s|] == s;
    }
  }

  /** `.replace(/\s+/g, '_')`: each maximal run of whitespace becomes one `_`. */
  function CollapseWhitespace(s: string): (r: string)
    ensures |r| <= |s|
    ensures forall i :: 0 <= i < |r| ==> !IsWhitespace(r[i])
    ensures (forall i :: 0 <= i < |s| ==> !IsWhitespace(s[i])) ==> r == s
    decreases |s|
  {
    if s == [] then []
    else if IsWhitespace(s[0]) then
      var rest := TrimStart(s);
      "_" + CollapseWhitespace(rest)
    else [s[0]] + CollapseWhitespace(s[1..])
  }

  /** Skipping a run of whitespace lands on the first character after it. */
  lemma {:induction false} TrimStartRun(w: string, b: string)
    requires forall i :: 0 <= i < |w| ==> IsWhitespace(w[i])
    requires b == [] || !IsWhitespace(b[0])
    ensures TrimStart(w + b) == b
  {
    if w != [] {
      assert (w + b)[1..] == w[1..] + b;
      TrimStartRun(w[1..], b);
    }
  }

  /** A whitespace run at the front becomes one `_`. */
  lemma CollapseLeadingRun(w: string, b: string)
    requires w != [] && forall i :: 0 <= i < |w| ==> IsWhitespace(w[i])
    requires b == [] || !IsWhitespace(b[0])
    ensures CollapseWhitespace(w + b) == "_" + CollapseWhitespace(b)
  {
    assert (w + b)[0] == w[0];
    TrimStartRun(w, b);
  }

  /** A character other than whitespace is copied to the front of the result. */
  lemma CollapseSolidHead(c: char, t: string)
    requires !IsWhitespace(c)
    ensures CollapseWhitespace([c] + t) == [c] + CollapseWhitespace(t)
  {
    assert ([c] + t)[1..] == t;
  }

  /** Prefixing one character commutes with joining. */
  lemma SeqConsAssoc(c: char, t: string, u: string)
    ensures [c] + (t + u) == ([c] + t) + u
  {
  }

  /** A maximal run of whitespace becomes exactly one `_`, and the text in front of it
      is kept as it is. */
  lemma {:induction false} CollapseRun(a: string, w: string, b: string)
    requires forall i :: 0 <= i < |a| ==> !IsWhitespace(a[i])
    requires w != [] && forall i :: 0 <= i < |w| ==> IsWhitespace(w[i])
    requires b == [] || !IsWhitespace(b[0])
    ensures CollapseWhitespace(a + w + b) == a + ("_" + CollapseWhitespace(b))
  {
    if a == [] {
      assert a + w + b == w + b;
      CollapseLeadingRun(w, b);
    } else {
      var t, rest := a[1..], CollapseWhitespace(b);
      assert a + w + b == [a[0]] + (t + w + b);
      CollapseSolidHead(a[0], t + w + b);
      CollapseRun(t, w, b);
      assert a == [a[0]] + t;
      SeqConsAssoc(a[0], t, "_" + rest);
    }
  }

  /** The text a supplied tag is compared with: `String(value)`, trimmed,
      lower-cased, whitespace runs replaced by `_`. */
  function CanonicalTag(value: Json): string {
    CollapseWhitespace(ToLower(Trim(ToJsString(value))))
  }

  /** normalizeTag: a falsy value means "no tag"; any other value must canonicalise
      to one of the four tag names. */
  function NormalizeTag(value: Json): (r: Result<Option<Tag>, Failure>)
    ensures r == Ok(None) <==> !Truthy(value)
    ensures r.Ok? && r.value.Some? ==> TagName(r.value.value) == CanonicalTag(value)
    ensures r.Err? <==> Truthy(value) && forall t: Tag :: TagName(t) != CanonicalTag(value)
    ensures r.Err? ==> r.error == InvalidTag(ToJsString(value))
  {
    if !Truthy(value) then Ok(None)
    else
      match ParseTagName(CanonicalTag(value))
      case Some(t) => Ok(Some(t))
      case None => Err(InvalidTag(ToJsString(value)))
  }

  /** Lower-casing works character by character, so it distributes over joining. */
  lemma {:induction false} ToLowerAppend(x: string, y: string)
    ensures ToLower(x + y) == ToLower(x) + ToLower(y)
  {
    if x != [] {
      assert (x + y)[1..] == x[1..] + y;
      ToLowerAppend(x[1..], y);
    }
  }

  /** Lower-casing leaves a run of whitespace in the middle as it is. */
  lemma ToLowerJoin(a: string, w: string, b: string)
    requires forall i :: 0 <= i < |w| ==> IsWhitespace(w[i])
    ensures ToLower(a + w + b) == ToLower(a) + w + ToLower(b)
  {
    ToLowerAppend(a + w, b);
    ToLowerAppend(a, w);
    ToLowerFixed(w);
  }

  /** Lower-casing text without whitespace gives text without whitespace. */
  lemma ToLowerSolid(a: string)
    requires forall i :: 0 <= i < |a| ==> !IsWhitespace(a[i])
    ensures forall i :: 0 <= i < |a| ==> !IsWhitespace(ToLower(a)[i])
  {
    forall i | 0 <= i < |a|
      ensures !IsWhitespace(ToLower(a)[i])
    {
      ToLowerClasses(a, i);
    }
  }

  /** Two whitespace-free words around a run of whitespace collapse to the words
      joined by one `_`. */
  lemma CollapseBetween(x: string, w: string, y: string)
    requires forall i :: 0 <= i < |x| ==> !IsWhitespace(x[i])
    requires y != [] && forall i :: 0 <= i < |y| ==> !IsWhitespace(y[i])
    requires w != [] && forall i :: 0 <= i < |w| ==> IsWhitespace(w[i])
    ensures CollapseWhitespace(x + w + y) == x + "_" + y
  {
    CollapseRun(x, w, y);
    assert CollapseWhitespace(y) == y;
    assert x + ("_" + y) == x + "_" + y;
  }

  /** The canonical form of two words separated by a run of whitespace is the two
      lower-cased words joined by `_`. */
  lemma CanonicalSpaced(a: string, w: string, b: string)
    requires a != [] && forall i :: 0 <= i < |a| ==> !IsWhitespace(a[i])
    requires b != [] && forall i :: 0 <= i < |b| ==> !IsWhitespace(b[i])
    requires w != [] && forall i :: 0 <= i < |w| ==> IsWhitespace(w[i])
    ensures CanonicalTag(Str(a + w + b)) == ToLower(a) + "_" + ToLower(b)
  {
    var s := a + w + b;
    assert s[0] == a[0] && s[|s| - 1] == b[|b| - 1];
    TrimFixed(s);
    ToLowerJoin(a, w, b);
    ToLowerSolid(a);
    ToLowerSolid(b);
    CollapseBetween(ToLower(a), w, ToLower(b));
  }

  /** Two words separated by any run of whitespace, in any letter case, name the tag
      whose name is the two lower-cased words joined by `_`. */
  lemma NormalizeTagSpaced(a: string, w: string, b: string, t: Tag)
    requires a != [] && forall i :: 0 <= i < |a| ==> !IsWhitespace(a[i])
    requires b != [] && forall i :: 0 <= i < |b| ==> !IsWhitespace(b[i])
    requires w != [] && forall i :: 0 <= i < |w| ==> IsWhitespace(w[i])
    requires ToLower(a) + "_" + ToLower(b) == TagName(t)
    ensures NormalizeTag(Str(a + w + b)) == Ok(Some(t))
  {
    CanonicalSpaced(a, w, b);
    ParseTagNameRoundTrip(t);
  }

  /** "Deep  Work", or any other whitespace between the two words, is deep_work. */
  lemma DeepWorkSpaced(w: string)
    requires w != [] && forall i :: 0 <= i < |w| ==> IsWhitespace(w[i])
    ensures NormalizeTag(Str("Deep" + w + "Work")) == Ok(Some(DeepWork))
  {
    assert ToLower("Deep") == "deep";
    assert ToLower("Work") == "work";
    NormalizeTagSpaced("Deep", w, "Work", DeepWork);
  }

  /** A tag's own name is accepted as that tag. */
  lemma NormalizeTagRoundTrip(t: Tag)
    ensures NormalizeTag(Str(TagName(t))) == Ok(Some(t))
  {
    var name := TagName(t);
    TagNamePlain(t);
    CanonicalPlain(name);
    ParseTagNameRoundTrip(t);
    assert ParseTagName(CanonicalTag(Str(name))) == Some(t);
  }

  /** ParseTagName undoes TagName. */
  lemma ParseTagNameRoundTrip(t: Tag)
    ensures ParseTagName(TagName(t)) == Some(t)
  {
    match t
    case DeepWork =>
    case Admin =>
    case Communicating =>
    case Learning =>
  }

  /** Tag names are spelt with lower-case letters and `_`. */
  lemma TagNamePlain(t: Tag)
    ensures forall i :: 0 <= i < |TagName(t)| ==> 'a' <= TagName(t)[i] <= 'z' || TagName(t)[i] == '_'
  {
    match t
    case DeepWork =>
    case Admin =>
    case Communicating =>
    case Learning =>
  }

  /** Text made of lower-case letters and `_` only is its own canonical form. */
  lemma CanonicalPlain(s: string)
    requires forall i :: 0 <= i < |s| ==> 'a' <= s[i] <= 'z' || s[i] == '_'
    ensures CanonicalTag(Str(s)) == s
  {
    TrimFixed(s);
    ToLowerFixed(s);
  }

  /** What classifyTaskTag returns: a tag and where it came from. */
  datatype TagResult = TagResult(tag: Tag, source: Source)

  /** classifyTaskTag: a truthy supplied tag wins and is labelled manual; without
      one, AI tagging must be enabled (`allowAi = true` by default) and the inferred
      tag is labelled ai. */
  function ClassifyTaskTag(description: Json, providedTag: Json, allowAi: Json): (r: Result<TagResult, Failure>)
    ensures Truthy(providedTag) ==> (r.Ok? <==> NormalizeTag(providedTag).Ok?)
    ensures Truthy(providedTag) && r.Ok? ==> r.value == TagResult(NormalizeTag(providedTag).value.value, Manual)
    ensures Truthy(providedTag) && r.Err? ==> r.error == NormalizeTag(providedTag).error
    ensures !Truthy(providedTag) && !DefaultTrue(allowAi) ==> r == Err(TagRequired)
    ensures !Truthy(providedTag) && DefaultTrue(allowAi) ==>
              (r.Ok? <==> description.Undefined? || description.Str?)
              && (r.Ok? ==> r.value == TagResult(InferTag(description).value, Ai))
    ensures r.Ok? ==> (r.value.source == Manual <==> Truthy(providedTag))
  {
    if Truthy(providedTag) then
      var normalized := NormalizeTag(providedTag);
      if normalized.Err? then Err(normalized.error)
      else Ok(TagResult(normalized.value.value, Manual))
    else if !DefaultTrue(allowAi) then Err(TagRequired)
    else
      match InferTag(description)
      case Err(e) => Err(e)
      case Ok(t) => Ok(TagResult(t, Ai))
  }

  /** A supplied tag makes the AI setting and the description irrelevant. */
  lemma ClassifySuppliedIgnoresAi(d1: Json, d2: Json, providedTag: Json, a1: Json, a2: Json)
    requires Truthy(providedTag)
    ensures ClassifyTaskTag(d1, providedTag, a1) == ClassifyTaskTag(d2, providedTag, a2)
  {
  }
}
