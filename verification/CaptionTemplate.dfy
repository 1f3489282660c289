/**
 Expanding caption templates and rendering one part's copy for one platform
 (sau/captions/template.py). Which characters may stand in a placeholder's name is a parameter:
 the regular expression's class contains neither brace.
 */
module CaptionTemplate {
  import opened Platforms
  import opened CaptionText

  type WordClass = word: char -> bool | !word('{') && !word('}') witness (c: char) => false

  // ---- the pieces of a template ----------------------------------------------------------

  datatype Segment = Plain(c: char) | Field(name: string)

  /** The length of the run of word characters a text begins with. */
  function RunLength(word: WordClass, s: string): (n: nat)
    ensures n <= |s| && (forall i :: 0 <= i < n ==> word(s[i])) && (n < |s| ==> !word(s[n]))
  {
    if s == "" || !word(s[0]) then 0 else 1 + RunLength(word, s[1..])
  }

  /** The length of the name of the placeholder a text begins with, or 0. */
  function FieldAt(word: WordClass, s: string): (n: nat)
    ensures n > 0 ==> n + 2 <= |s|
  {
    if s == "" || s[0] != '{' then 0
    else
      var n := RunLength(word, s[1..]);
      if n + 1 < |s| && s[n + 1] == '}' then n else 0
  }

  /** The placeholder a text begins with, or else its first character. */
  function Head(word: WordClass, s: string): Segment
    requires s != ""
  {
    var n := FieldAt(word, s);
    if n > 0 then Field(s[1..n + 1]) else Plain(s[0])
  }

  function HeadSize(word: WordClass, s: string): (n: nat)
    requires s != ""
    ensures 0 < n <= |s|
  {
    var n := FieldAt(word, s);
    if n > 0 then n + 2 else 1
  }

  /** The pattern's matches from left to right, and the characters between them. */
  function Parse(word: WordClass, s: string): seq<Segment> {
    if s == "" then [] else [Head(word, s)] + Parse(word, s[HeadSize(word, s)..])
  }

  function Text(segment: Segment): string {
    match segment
    case Plain(c) => [c]
    case Field(name) => "{" + name + "}"
  }

  function Unparse(segments: seq<Segment>): string {
    if segments == [] then "" else Text(segments[0]) + Unparse(segments[1..])
  }

  function Value(segment: Segment, values: map<string, string>): string {
    if segment.Field? && segment.name in values then values[segment.name] else Text(segment)
  }

  function Emit(segments: seq<Segment>, values: map<string, string>): string {
    if segments == [] then "" else Value(segments[0], values) + Emit(segments[1..], values)
  }

  function Substitute(word: WordClass, template: string, values: map<string, string>): string {
    Emit(Parse(word, template), values)
  }

  // ---- one pass, from the left -----------------------------------------------------------

  predicate IsName(word: WordClass, name: string) {
    name != "" && forall i :: 0 <= i < |name| ==> word(name[i])
  }

  /** No placeholder begins where a plain character was taken. */
  predicate Leftmost(word: WordClass, segments: seq<Segment>) {
    segments == []
    || (Leftmost(word, segments[1..])
        && (if segments[0].Plain? then FieldAt(word, Unparse(segments)) == 0 else IsName(word, segments[0].name)))
  }

  lemma {:induction false} RunOfName(word: WordClass, name: string, rest: string)
    requires forall i :: 0 <= i < |name| ==> word(name[i])
    requires rest == "" || !word(rest[0])
    ensures RunLength(word, name + rest) == |name|
    decreases |name|
  {
    if name == "" {
      assert name + rest == rest;
    } else {
      assert (name + rest)[1..] == name[1..] + rest;
      RunOfName(word, name[1..], rest);
    }
  }

  lemma FieldIsRead(word: WordClass, name: string, rest: string)
    requires IsName(word, name)
    ensures var s := "{" + name + "}" + rest;
            FieldAt(word, s) == |name| && s[1..|name| + 1] == name && s[|name| + 2..] == rest
  {
    var s := "{" + name + "}" + rest;
    assert s[1..] == name + ("}" + rest);
    RunOfName(word, name, "}" + rest);
  }

  /** Read left to right, a template has one division into placeholders and plain characters. */
  lemma {:induction false} ParseIsTheLeftmostDivision(word: WordClass, s: string, segments: seq<Segment>)
    ensures segments == Parse(word, s) <==> Unparse(segments) == s && Leftmost(word, segments)
    decreases |s|, |segments|
  {
    ParseDivides(word, s);
    if Unparse(segments) == s && Leftmost(word, segments) && segments != [] {
      var rest := Unparse(segments[1..]);
      match segments[0] {
        case Plain(c) =>
          assert s == [c] + rest && s[1..] == rest;
          ParseIsTheLeftmostDivision(word, rest, segments[1..]);
        case Field(name) =>
          assert s == "{" + name + "}" + rest;
          FieldIsRead(word, name, rest);
          ParseIsTheLeftmostDivision(word, rest, segments[1..]);
      }
      assert segments == [segments[0]] + segments[1..];
    }
  }

  lemma HeadBegins(word: WordClass, s: string)
    requires s != ""
    ensures Text(Head(word, s)) + s[HeadSize(word, s)..] == s
    ensures if FieldAt(word, s) > 0 then Head(word, s).Field? && IsName(word, Head(word, s).name)
            else Head(word, s).Plain?
  {
  }

  lemma {:induction false} ParseDivides(word: WordClass, s: string)
    ensures Unparse(Parse(word, s)) == s && Leftmost(word, Parse(word, s))
    decreases |s|
  {
    if s != "" {
      var rest := s[HeadSize(word, s)..];
      HeadBegins(word, s);
      ParseDivides(word, rest);
      DivisionGrows(word, Head(word, s), Parse(word, rest), s);
    }
  }

  lemma DivisionGrows(word: WordClass, first: Segment, segments: seq<Segment>, s: string)
    requires Leftmost(word, segments) && Text(first) + Unparse(segments) == s
    requires if first.Plain? then FieldAt(word, s) == 0 else IsName(word, first.name)
    ensures Unparse([first] + segments) == s && Leftmost(word, [first] + segments)
  {
  }

  /** Where nothing is known everything stays, braces and all. */
  lemma UnknownFieldsStay(word: WordClass, template: string, values: map<string, string>)
    requires forall segment :: segment in Parse(word, template) && segment.Field? ==> segment.name !in values
    ensures Substitute(word, template, values) == template
  {
    ParseDivides(word, template);
    EmitOfUnknown(Parse(word, template), values);
  }

  lemma {:induction false} EmitOfUnknown(segments: seq<Segment>, values: map<string, string>)
    requires forall segment :: segment in segments && segment.Field? ==> segment.name !in values
    ensures Emit(segments, values) == Unparse(segments)
    decreases |segments|
  {
    if segments != [] {
      EmitOfUnknown(segments[1..], values);
    }
  }

  // No match crosses an opening brace, so what stands before a placeholder and what stands after
  // it are read by themselves.

  lemma {:induction false} RunStopsAtBrace(word: WordClass, a: string, b: string)
    ensures RunLength(word, a + "{" + b) == RunLength(word, a)
    decreases |a|
  {
    var s := a + "{" + b;
    if a != "" && word(a[0]) {
      assert s[1..] == a[1..] + "{" + b;
      RunStopsAtBrace(word, a[1..], b);
    }
  }

  lemma FieldStopsAtBrace(word: WordClass, a: string, b: string)
    requires a != ""
    ensures FieldAt(word, a + "{" + b) == FieldAt(word, a)
  {
    var s := a + "{" + b;
    assert s[1..] == a[1..] + "{" + b;
    RunStopsAtBrace(word, a[1..], b);
    var n := RunLength(word, a[1..]);
    assert n + 1 == |a| ==> s[n + 1] == '{';
  }

  lemma HeadStopsAtBrace(word: WordClass, a: string, b: string)
    requires a != ""
    ensures Head(word, a + "{" + b) == Head(word, a) && HeadSize(word, a + "{" + b) == HeadSize(word, a)
    ensures (a + "{" + b)[HeadSize(word, a)..] == a[HeadSize(word, a)..] + "{" + b
  {
    FieldStopsAtBrace(word, a, b);
    var n := FieldAt(word, a);
    assert n > 0 ==> (a + "{" + b)[1..n + 1] == a[1..n + 1];
  }

  lemma {:induction false} ParseSplitsAtBrace(word: WordClass, a: string, b: string)
    ensures Parse(word, a + "{" + b) == Parse(word, a) + Parse(word, "{" + b)
    decreases |a|
  {
    if a == "" {
      assert a + "{" + b == "{" + b;
    } else {
      HeadStopsAtBrace(word, a, b);
      ParseSplitsAtBrace(word, a[HeadSize(word, a)..], b);
    }
  }

  lemma {:induction false} EmitConcat(a: seq<Segment>, b: seq<Segment>, values: map<string, string>)
    ensures Emit(a + b, values) == Emit(a, values) + Emit(b, values)
    decreases |a|
  {
    if a == [] {
      assert a + b == b;
    } else {
      assert (a + b)[1..] == a[1..] + b;
      EmitConcat(a[1..], b, values);
    }
  }

  /**
   A placeholder is replaced by its value, or stays as it is if it has none; what is around it is
   expanded by itself. The value is not looked at again, whatever placeholders it contains, nor do
   its characters join with those around it into one.
   */
  lemma PlaceholdersExpandIndependently(word: WordClass, before: string, name: string, rest: string,
        values: map<string, string>)
    requires IsName(word, name)
    ensures Substitute(word, before + "{" + (name + "}" + rest), values)
            == Substitute(word, before, values)
               + ((if name in values then values[name] else "{" + name + "}") + Substitute(word, rest, values))
  {
    var tail := name + "}" + rest;
    SubstituteSplitsAtBrace(word, before, tail, values);
    PlaceholderIsRead(word, "{" + tail, name, rest);
    EmitFirst(Field(name), Parse(word, rest), values);
  }

  lemma SubstituteSplitsAtBrace(word: WordClass, a: string, b: string, values: map<string, string>)
    ensures Substitute(word, a + "{" + b, values) == Substitute(word, a, values) + Substitute(word, "{" + b, values)
  {
    ParseSplitsAtBrace(word, a, b);
    EmitConcat(Parse(word, a), Parse(word, "{" + b), values);
  }

  lemma PlaceholderIsRead(word: WordClass, s: string, name: string, rest: string)
    requires IsName(word, name) && s == "{" + (name + "}" + rest)
    ensures Parse(word, s) == [Field(name)] + Parse(word, rest)
  {
    assert s == "{" + name + "}" + rest;
    FieldIsRead(word, name, rest);
    assert Head(word, s) == Field(name) && HeadSize(word, s) == |name| + 2;
  }

  lemma EmitFirst(segment: Segment, segments: seq<Segment>, values: map<string, string>)
    ensures Emit([segment] + segments, values) == Value(segment, values) + Emit(segments, values)
  {
    assert ([segment] + segments)[1..] == segments;
  }

  // ---- rendering -------------------------------------------------------------------------

  datatype SeriesCopy = SeriesCopy(titleLocal: string, titleEn: string, synopsis: string, captionTemplate: string,
                                   titleTemplate: string, nextTeaserTemplate: string, hashtags: map<string, string>)

  datatype Rendered = Rendered(caption: string, title: string)

  function CaptionLimit(p: Platform): nat {
    match p
    case TikTok => 2200
    case FacebookReel => 2200
    case FacebookVideo => 5000
  }

  /** Zero: the platform has no title. */
  function TitleLimit(p: Platform): nat {
    match p
    case TikTok => 150
    case FacebookReel => 0
    case FacebookVideo => 255
  }

  function Digits(n: nat): string {
    if n < 10 then [('0' as int + n) as char] else Digits(n / 10) + [('0' as int + n % 10) as char]
  }

  function Decimal(n: int): string {
    if n < 0 then "-" + Digits(-n) else Digits(n)
  }

  /** The number a text of decimal digits stands for. */
  function Reading(s: string): int {
    if s == "" then 0 else 10 * Reading(s[..|s| - 1]) + (s[|s| - 1] as int - '0' as int)
  }

  /** A number is written in digits, without a leading zero, and reads back as itself. */
  lemma {:induction false} DigitsReadBack(n: nat)
    ensures Reading(Digits(n)) == n && Digits(n) != "" && (Digits(n)[0] == '0' ==> n == 0)
    ensures forall i :: 0 <= i < |Digits(n)| ==> '0' <= Digits(n)[i] <= '9'
  {
    if n >= 10 {
      DigitsReadBack(n / 10);
    }
  }

  lemma DecimalReadsBack(n: int)
    ensures if n < 0 then Decimal(n)[0] == '-' && Reading(Decimal(n)[1..]) == -n
            else Reading(Decimal(n)) == n && Decimal(n)[0] != '-'
  {
    DigitsReadBack(if n < 0 then -n else n);
  }

  function HashtagsFor(copy: SeriesCopy, p: Platform): string {
    if PlatformValue(p) in copy.hashtags then copy.hashtags[PlatformValue(p)] else ""
  }

  /** Everything a template may name but the teaser, which is itself a template. */
  function BaseValues(copy: SeriesCopy, part: int, total: int, hook: string, p: Platform): map<string, string> {
    map["series" := copy.titleLocal, "series_en" := copy.titleEn, "synopsis" := copy.synopsis, "part" := Decimal(part),
        "total" := Decimal(total), "next_part" := if part < total then Decimal(part + 1) else "", "hook" := Strip(hook),
        "hashtags" := HashtagsFor(copy, p)]
  }

  function Context(word: WordClass, copy: SeriesCopy, part: int, total: int, hook: string, p: Platform)
    : map<string, string>
  {
    var values := BaseValues(copy, part, total, hook, p);
    values["next_teaser" := if part < total then Substitute(word, copy.nextTeaserTemplate, values) else ""]
  }

  /** What each name stands for. */
  lemma ContextNames(word: WordClass, copy: SeriesCopy, part: int, total: int, hook: string, p: Platform)
    ensures var values := Context(word, copy, part, total, hook, p);
            && values.Keys == {"series", "series_en", "synopsis", "part", "total", "next_part", "hook", "hashtags",
                               "next_teaser"}
            && values["series"] == copy.titleLocal && values["series_en"] == copy.titleEn
            && values["synopsis"] == copy.synopsis
            && values["part"] == Decimal(part) && values["total"] == Decimal(total)
            && values["next_part"] == (if part < total then Decimal(part + 1) else "")
            && values["hook"] == Strip(hook)
            && var tags := match p case TikTok => "tiktok" case FacebookReel => "facebook_reel"
                                   case FacebookVideo => "facebook_video";
            && values["hashtags"] == (if tags in copy.hashtags then copy.hashtags[tags] else "")
            && values["next_teaser"] == if part >= total then ""
                                        else Substitute(word, copy.nextTeaserTemplate, values - {"next_teaser"})
  {
    var values := Context(word, copy, part, total, hook, p);
    assert values - {"next_teaser"} == BaseValues(copy, part, total, hook, p);
  }

  function Rendering(word: WordClass, copy: SeriesCopy, part: int, total: int, hook: string, p: Platform): Rendered {
    var values := Context(word, copy, part, total, hook, p);
    Rendered(Fit(Tidied(Substitute(word, copy.captionTemplate, values)), CaptionLimit(p)),
             if TitleLimit(p) != 0 then Fit(Tidied(Substitute(word, copy.titleTemplate, values)), TitleLimit(p))
             else "")
  }

  /** `context` fills a dictionary in place, and `render` goes through the method `tidy`. */
  method Render(word: WordClass, copy: SeriesCopy, part: int, total: int, hook: string, p: Platform)
    returns (r: Rendered)
    ensures r == Rendering(word, copy, part, total, hook, p)
    ensures |r.caption| <= (match p case TikTok => 2200 case FacebookReel => 2200 case FacebookVideo => 5000)
    ensures |r.title| <= (match p case TikTok => 150 case FacebookReel => 0 case FacebookVideo => 255)
    ensures var caption := Tidied(Substitute(word, copy.captionTemplate, Context(word, copy, part, total, hook, p)));
            |caption| <= (match p case TikTok => 2200 case FacebookReel => 2200 case FacebookVideo => 5000) ==>
              r.caption == caption
    ensures var title := Tidied(Substitute(word, copy.titleTemplate, Context(word, copy, part, total, hook, p)));
            |title| <= (match p case TikTok => 150 case FacebookReel => 0 case FacebookVideo => 255) ==>
              r.title == title
  {
    var values := BaseValues(copy, part, total, hook, p);
    values := values["next_teaser" := if part < total then Substitute(word, copy.nextTeaserTemplate, values) else ""];
    var caption := Tidy(Substitute(word, copy.captionTemplate, values));
    FitIsWithinLimit(caption, CaptionLimit(p));
    var title := "";
    if TitleLimit(p) != 0 {
      title := Tidy(Substitute(word, copy.titleTemplate, values));
      FitIsWithinLimit(title, TitleLimit(p));
      title := Fit(title, TitleLimit(p));
    }
    return Rendered(Fit(caption, CaptionLimit(p)), title);
  }

  /** Whatever the templates and values, what is published fits its platform and is a normal form. */
  lemma RenderingFitsAndIsNormal(word: WordClass, copy: SeriesCopy, part: int, total: int, hook: string, p: Platform)
    ensures var r := Rendering(word, copy, part, total, hook, p);
            && |r.caption| <= CaptionLimit(p) && |r.title| <= TitleLimit(p)
            && NormalForm(r.caption) && NormalForm(r.title)
            && Tidied(r.caption) == r.caption && Fit(r.caption, CaptionLimit(p)) == r.caption
  {
    var values := Context(word, copy, part, total, hook, p);
    var caption, title := Substitute(word, copy.captionTemplate, values), Substitute(word, copy.titleTemplate, values);
    FitIsWithinLimit(Tidied(caption), CaptionLimit(p));
    FitIsIdempotent(Tidied(caption), CaptionLimit(p));
    TidiedIsNormal(caption);
    FitKeepsNormalForm(Tidied(caption), CaptionLimit(p));
    FitAfterTidyIsTidied(caption, CaptionLimit(p));
    FitIsWithinLimit(Tidied(title), TitleLimit(p));
    TidiedIsNormal(title);
    FitKeepsNormalForm(Tidied(title), TitleLimit(p));
  }

  /** The last part promises no next one: whatever the teaser's template, it is rendered the same. */
  lemma LastPartIgnoresTheTeaser(word: WordClass, copy: SeriesCopy, teaser: string, part: int, total: int,
        hook: string, p: Platform)
    requires part >= total
    ensures Rendering(word, copy.(nextTeaserTemplate := teaser), part, total, hook, p)
            == Rendering(word, copy, part, total, hook, p)
    ensures var values := Context(word, copy, part, total, hook, p);
            values["next_teaser"] == "" && values["next_part"] == ""
  {
  }
}
