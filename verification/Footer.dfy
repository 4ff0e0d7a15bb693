/** The project footer of managed_admin.py: stripped from what the owner types, appended to what Spotify shows. */
module Footer {
  import opened Basics

  const SPOTIFY_PLAYLIST_DESCRIPTION_LIMIT := 300
  /** " . " with the middle dot, U+00B7. */
  function Dot(): string { " \U{00B7} " }
  function ProfileUrl(): string { "https://github.com/eXPerience83" }
  function RepositoryUrl(): string { ProfileUrl() + "/news-bulletin-playlist" }
  function LegacyFooter(): string { "Proyecto: " + RepositoryUrl() }
  function BilingualFooter(): string { "Proyecto / Project: " + RepositoryUrl() }
  function LegacySuffix(): string { Dot() + "by eXPerience83" + Dot() + ProfileUrl() }
  function StandaloneFooter(): string { "News Bulletin Playlist" + LegacySuffix() }
  function ProjectFooter(): string {
    "Made with News Bulletin Playlist" + Dot() + "by eXPerience83" + Dot() + RepositoryUrl()
  }
  function ProjectSuffix(): string { Dot() + ProjectFooter() }
  function MaxBaseLength(): int { SPOTIFY_PLAYLIST_DESCRIPTION_LIMIT - |ProjectSuffix()| }
  function MaxDescriptionLength(): int { SPOTIFY_PLAYLIST_DESCRIPTION_LIMIT - |LegacySuffix()| }

  function Footers(): seq<string> { [ProjectFooter(), StandaloneFooter(), BilingualFooter(), LegacyFooter()] }
  function Suffixes(): seq<string> { [ProjectSuffix(), LegacySuffix()] }

  /** The characters that Python's `str.rstrip` removes. */
  predicate IsSpace(c: char) {
    var n := c as int;
    || 9 <= n <= 13 || 28 <= n <= 32 || n == 0x85 || n == 0xA0 || n == 0x1680 || 0x2000 <= n <= 0x200A
    || n == 0x2028 || n == 0x2029 || n == 0x202F || n == 0x205F || n == 0x3000
  }

  predicate IsBreak(c: char) {
    c == '\n' || c == '\r'
  }

  function RStrip(text: string): (stripped: string)
    ensures stripped <= text
    ensures stripped != [] ==> !IsSpace(stripped[|stripped| - 1])
    ensures forall i :: |stripped| <= i < |text| ==> IsSpace(text[i])
  {
    if text != [] && IsSpace(text[|text| - 1]) then RStrip(text[..|text| - 1]) else text
  }

  predicate EndsWith(text: string, end: string) {
    |end| <= |text| && text[|text| - |end|..] == end
  }

  function Before(text: string, end: string): string
    requires EndsWith(text, end)
  {
    text[..|text| - |end|]
  }

  predicate OnItsOwnLine(candidate: string, footer: string) {
    && EndsWith(candidate, footer)
    && Before(candidate, footer) != [] && IsBreak(Before(candidate, footer)[|candidate| - |footer| - 1])
  }

  function FirstOnItsOwnLine(candidate: string, footers: seq<string>): (found: Option<string>)
    ensures found.Some? ==>
              found.value in footers && OnItsOwnLine(candidate, found.value) && EndsWith(candidate, found.value)
    ensures found.None? ==> forall f :: f in footers ==> !OnItsOwnLine(candidate, f)
  {
    if footers == [] then None
    else if OnItsOwnLine(candidate, footers[0]) then Some(footers[0])
    else FirstOnItsOwnLine(candidate, footers[1..])
  }

  function FirstEnding(candidate: string, suffixes: seq<string>): (found: Option<string>)
    ensures found.Some? ==> found.value in suffixes && EndsWith(candidate, found.value)
    ensures found.None? ==> forall s :: s in suffixes ==> !EndsWith(candidate, s)
  {
    if suffixes == [] then None
    else if EndsWith(candidate, suffixes[0]) then Some(suffixes[0])
    else FirstEnding(candidate, suffixes[1..])
  }

  /** No footer is left to take off: none of the three tests of the loop succeeds. */
  ghost predicate Clean(text: string) {
    var candidate := RStrip(text);
    && candidate !in Footers()
    && (forall f :: f in Footers() ==> !OnItsOwnLine(candidate, f))
    && (forall s :: s in Suffixes() ==> !EndsWith(candidate, s))
  }

  lemma NoneEmpty()
    ensures forall f :: f in Footers() ==> f != []
    ensures forall s :: s in Suffixes() ==> s != []
  {
  }

  /** One pass of the loop; `None` when it returns. */
  function Strip1(text: string): (next: Option<string>)
    ensures next.Some? ==> |next.value| < |text| && next.value <= text
    ensures next.None? <==> Clean(text)
  {
    NoneEmpty();
    var candidate := RStrip(text);
    var footer, suffix := FirstOnItsOwnLine(candidate, Footers()), FirstEnding(candidate, Suffixes());
    if candidate in Footers() then Some("")
    else if footer.Some? then Some(RStrip(Before(candidate, footer.value)))
    else if suffix.Some? then Some(Before(candidate, suffix.value))
    else None
  }

  function Strip(text: string): (stripped: string)
    ensures Clean(stripped) && stripped <= text
    decreases |text|
  {
    var next := Strip1(text);
    if next.None? then text else Strip(next.value)
  }

  /** `_strip_terminal_project_footer`. */
  method StripTerminalFooter(value: string) returns (result: string)
    ensures result == Strip(value)
  {
    hide Clean, EndsWith, OnItsOwnLine, RStrip, Footers, Suffixes;
    NoneEmpty();
    result := value;
    while true
      invariant Strip(result) == Strip(value)
      decreases |result|
    {
      var candidate := RStrip(result);
      if candidate in Footers() {
        result := "";
        continue;
      }
      var footer := FirstOnItsOwnLine(candidate, Footers());
      if footer.Some? {
        result := RStrip(Before(candidate, footer.value));
        continue;
      }
      var suffix := FirstEnding(candidate, Suffixes());
      if suffix.Some? {
        result := Before(candidate, suffix.value);
        continue;
      }
      return result;
    }
  }

  /** Stripping changes nothing exactly when there is nothing to strip; doing it again never does. */
  lemma StripIsIdempotent(text: string)
    ensures Strip(text) == text <==> Clean(text)
    ensures Strip(Strip(text)) == Strip(text)
  {
    hide Clean;
    assert Strip1(Strip(text)).None?;
  }

  /** A footer, a suffix, or white space: all that stripping may take away. */
  ghost predicate Removable(piece: string) {
    piece in Footers() || piece in Suffixes() || forall c :: c in piece ==> IsSpace(c)
  }

  function Concat(pieces: seq<string>): string {
    if pieces == [] then "" else pieces[0] + Concat(pieces[1..])
  }

  lemma AppendAssociates(a: string, b: string, c: string)
    ensures a + (b + c) == a + b + c
  {
  }

  lemma {:induction false} ConcatAppend(pieces: seq<string>, more: seq<string>)
    ensures Concat(pieces + more) == Concat(pieces) + Concat(more)
  {
    if pieces == [] {
      assert pieces + more == more;
    } else {
      ConcatAppend(pieces[1..], more);
      assert (pieces + more)[1..] == pieces[1..] + more && (pieces + more)[0] == pieces[0];
      AppendAssociates(pieces[0], Concat(pieces[1..]), Concat(more));
    }
  }

  lemma ConcatOf(a: string, b: string, c: string)
    ensures Concat([a]) == a && Concat([a, b]) == a + b && Concat([a, b, c]) == a + b + c
  {
    assert [a, b][1..] == [b] && [b][1..] == [] && [a, b, c][1..] == [b, c] && [b, c][1..] == [c] && [c][1..] == [];
    assert [a][1..] == [] && Concat([a]) == a;
    assert Concat([b]) == b && Concat([c]) == c;
    assert Concat([b, c]) == b + c;
  }

  /** White space after the stripped text. */
  function Trailing(text: string): (space: string)
    ensures text == RStrip(text) + space && forall c :: c in space ==> IsSpace(c)
  {
    text[|RStrip(text)|..]
  }

  lemma SpaceIsRemovable(text: string)
    ensures Removable(Trailing(text))
  {
    hide Footers, Suffixes, RStrip, IsSpace;
  }

  lemma BeforeThenEnd(text: string, end: string)
    requires EndsWith(text, end)
    ensures text == Before(text, end) + end
  {
  }

  lemma FooterIsTaken(candidate: string, footer: string) returns (taken: seq<string>)
    requires EndsWith(candidate, footer) && footer in Footers()
    ensures candidate == RStrip(Before(candidate, footer)) + Concat(taken)
    ensures forall p :: p in taken ==> Removable(p)
  {
    hide Footers, Suffixes, RStrip, IsSpace, Concat;
    var before := Before(candidate, footer);
    var space := Trailing(before);
    SpaceIsRemovable(before);
    taken := [space, footer];
    ConcatOf(space, footer, "");
    assert candidate == before + footer;
    AppendAssociates(RStrip(before), space, footer);
  }

  /** What one pass takes off the end. */
  lemma PassTakesOnlyFooters(text: string) returns (taken: seq<string>)
    requires Strip1(text).Some?
    ensures text == Strip1(text).value + Concat(taken)
    ensures forall p :: p in taken ==> Removable(p)
  {
    hide Clean, Footers, Suffixes, OnItsOwnLine, EndsWith, Concat, RStrip, IsSpace, Trailing, Before;
    var candidate, trailing := RStrip(text), Trailing(text);
    var parts: seq<string>;
    if candidate in Footers() {
      parts := [candidate];
      ConcatOf(candidate, "", "");
    } else if FirstOnItsOwnLine(candidate, Footers()).Some? {
      parts := FooterIsTaken(candidate, FirstOnItsOwnLine(candidate, Footers()).value);
    } else {
      var suffix := FirstEnding(candidate, Suffixes()).value;
      parts := [suffix];
      ConcatOf(suffix, "", "");
      BeforeThenEnd(candidate, suffix);
    }
    assert candidate == Strip1(text).value + Concat(parts);
    SpaceIsRemovable(text);
    ConcatAppend(parts, [trailing]);
    ConcatOf(trailing, "", "");
    AppendAssociates(Strip1(text).value, Concat(parts), trailing);
    taken := parts + [trailing];
  }

  /** What was taken off the end was made of footers and white space, and none is left. */
  lemma {:induction false} StripTakesOnlyFooters(text: string) returns (pieces: seq<string>)
    ensures text == Strip(text) + Concat(pieces) && Clean(Strip(text))
    ensures forall p :: p in pieces ==> Removable(p)
    decreases |text|
  {
    hide Clean, Removable, Strip1;
    if Strip1(text).None? {
      return [];
    }
    var taken := PassTakesOnlyFooters(text);
    pieces := StripTakesOnlyFooters(Strip1(text).value);
    ConcatAppend(pieces, taken);
    pieces := pieces + taken;
  }

  // ---------------------------------------------------------------- rendering

  datatype DescriptionError = TooLong | TooLongForSpotify

  /** Each CR LF pair, CR or LF becomes one space. */
  function Flatten(text: string): (flat: string)
    ensures |flat| <= |text| && forall c :: c in flat ==> !IsBreak(c)
  {
    if text == [] then []
    else if |text| >= 2 && text[0] == '\r' && text[1] == '\n' then [' '] + Flatten(text[2..])
    else if IsBreak(text[0]) then [' '] + Flatten(text[1..])
    else [text[0]] + Flatten(text[1..])
  }

  function Description(value: string): Result<string, DescriptionError> {
    if |Strip(value)| > MaxDescriptionLength() then Err(TooLong) else Ok(Strip(value))
  }

  /** `render_spotify_description`. */
  function Render(value: string): Result<string, DescriptionError> {
    var description :- Description(value);
    var base := Flatten(description);
    if |base| > MaxBaseLength() then Err(TooLongForSpotify)
    else if base == [] then Ok(ProjectFooter())
    else Ok(base + ProjectSuffix())
  }

  lemma {:induction false} FlattenFlat(text: string)
    requires forall c :: c in text ==> !IsBreak(c)
    ensures Flatten(text) == text
  {
    if text != [] {
      FlattenFlat(text[1..]);
    }
  }

  lemma OtherEndings(base: string)
    ensures var y := base + ProjectSuffix();
            && !EndsWith(y, StandaloneFooter()) && !EndsWith(y, BilingualFooter()) && !EndsWith(y, LegacyFooter())
  {
    var y, url := base + ProjectSuffix(), |RepositoryUrl()|;
    var n := |y|;
    assert y[n - 1] == 't' && StandaloneFooter()[|StandaloneFooter()| - 1] == '3';
    assert y[n - url - 2] == '\U{00B7}';
    assert BilingualFooter()[|BilingualFooter()| - url - 2] == ':' && LegacyFooter()[|LegacyFooter()| - url - 2] == ':';
  }

  /** Which of the loop's tests a rendered description meets: only the one for the project suffix. */
  lemma RenderedMeetsOneTest(base: string)
    ensures var y := base + ProjectSuffix();
            && RStrip(y) == y
            && y !in Footers()
            && (forall f :: f in Footers() ==> !OnItsOwnLine(y, f))
            && FirstEnding(y, Suffixes()) == Some(ProjectSuffix())
            && Before(y, ProjectSuffix()) == base
  {
    hide StandaloneFooter, BilingualFooter, LegacyFooter, LegacySuffix;
    var y := base + ProjectSuffix();
    OtherEndings(base);
    assert y[|base|..] == ProjectSuffix();
  }

  lemma FooterAloneStripsToNothing()
    ensures Strip(ProjectFooter()) == ""
  {
    var footer := ProjectFooter();
    assert RStrip(footer) == footer by {
      assert footer[|footer| - 1] == 't';
    }
    assert Strip1(footer) == Some("");
    assert RStrip("") == "";
    NoneEmpty();
    assert Clean("");
  }

  lemma StripOfRendered(base: string)
    ensures Strip(base + ProjectSuffix()) == Strip(base)
  {
    hide Clean, RStrip, EndsWith, OnItsOwnLine, Footers, Suffixes, ProjectSuffix;
    RenderedMeetsOneTest(base);
    NoneEmpty();
    var y := base + ProjectSuffix();
    if FirstOnItsOwnLine(y, Footers()).Some? {
      assert false;
    }
    assert Strip1(y) == Some(base);
  }

  /** The text that Spotify is sent never exceeds its limit, and carries the footer exactly at its end. */
  lemma RenderedFits(value: string)
    requires Render(value).Ok?
    ensures |Render(value).value| <= SPOTIFY_PLAYLIST_DESCRIPTION_LIMIT
    ensures EndsWith(Render(value).value, ProjectFooter())
  {
    var base := Flatten(Strip(value));
    var y := Render(value).value;
    if base != [] {
      assert ProjectSuffix()[|Dot()|..] == ProjectFooter();
      assert y[|base|..] == ProjectSuffix();
      assert y[|y| - |ProjectFooter()|..] == ProjectSuffix()[|Dot()|..];
    }
  }

  /** Reading a rendered description back: the flattened base, with whatever footers flattening uncovered taken off. */
  lemma StripOfRender(value: string)
    requires Render(value).Ok?
    ensures Strip(Render(value).value) == Strip(Flatten(Strip(value)))
  {
    hide Clean, RStrip, EndsWith, OnItsOwnLine, Footers, Suffixes, ProjectSuffix, ProjectFooter;
    var base := Flatten(Strip(value));
    if base == [] {
      FooterAloneStripsToNothing();
      assert Strip([]) == [];
    } else {
      StripOfRendered(base);
    }
  }

  /**
   * Rendering is idempotent exactly on the descriptions whose flattened base has no footer at its
   * end: turning a line break into a space must not make a suffix out of a line that had none.
   */
  lemma {:induction false} RenderAgain(value: string)
    requires Render(value).Ok?
    ensures Render(Render(value).value) == Render(value) <==> Clean(Flatten(Strip(value)))
    ensures Strip(Render(value).value) == Flatten(Strip(value)) <==> Clean(Flatten(Strip(value)))
  {
    hide Clean, RStrip, EndsWith, OnItsOwnLine, Footers, Suffixes, Flatten, Strip;
    var base := Flatten(Strip(value));
    var again := Strip(Render(value).value);
    StripOfRender(value);
    StripIsIdempotent(base);
    assert again <= base;
    forall c | c in again ensures !IsBreak(c) {
      assert c in base;
    }
    FlattenFlat(again);
    MaxLengths();
    assert |base| <= MaxBaseLength();
    if again == base {
      assert Render(Render(value).value) == Render(value);
    } else {
      assert |again| < |base|;
      RenderedDiffer(again, base);
    }
  }

  lemma MaxLengths()
    ensures MaxBaseLength() <= MaxDescriptionLength()
  {
  }

  lemma RenderedDiffer(a: string, b: string)
    requires |a| < |b|
    ensures a + ProjectSuffix() != b + ProjectSuffix() && ProjectFooter() != b + ProjectSuffix()
  {
    assert |a + ProjectSuffix()| < |b + ProjectSuffix()|;
  }

  /** Without line breaks in what the owner typed, both round trips always hold. */
  lemma {:induction false} RenderOneLine(value: string)
    requires Render(value).Ok? && forall c :: c in value ==> !IsBreak(c)
    ensures Render(Render(value).value) == Render(value)
    ensures Strip(Render(value).value) == Strip(value)
  {
    var base := Strip(value);
    forall c | c in base ensures !IsBreak(c) {
      assert c in value;
    }
    FlattenFlat(base);
    RenderAgain(value);
  }

  lemma FlattenStep(c: char, rest: string)
    ensures Flatten([c] + rest) == if c == '\r' && rest != [] && rest[0] == '\n' then Flatten(['\r'] + rest)
                                   else (if IsBreak(c) then " " else [c]) + Flatten(rest)
  {
    assert ([c] + rest)[1..] == rest;
  }

  lemma {:induction false} FlattenJoins(a: string, b: string)
    requires forall c :: c in a ==> !IsBreak(c)
    requires forall c :: c in b ==> !IsBreak(c)
    ensures Flatten(a + "\n" + b) == a + " " + b
  {
    hide Flatten;
    if a == [] {
      assert a + "\n" + b == ['\n'] + b && a + " " + b == " " + b;
      FlattenStep('\n', b);
      FlattenFlat(b);
    } else {
      var rest := a[1..];
      FlattenJoins(rest, b);
      FlattenStep(a[0], rest + "\n" + b);
      assert a == [a[0]] + rest;
      AppendAssociates([a[0]], rest + "\n", b);
      AppendAssociates([a[0]], rest, "\n");
      AppendAssociates([a[0]], rest + " ", b);
      AppendAssociates([a[0]], rest, " ");
      assert a[0] in a;
      assert a + "\n" + b == [a[0]] + (rest + "\n" + b);
      assert a + " " + b == [a[0]] + (rest + " " + b);
    }
  }

  /** The old attribution without its leading space: not a footer when it stands on its own line. */
  function OldAttribution(): string { LegacySuffix()[1..] }

  lemma OldAttributionLetters()
    ensures OldAttribution() != [] && OldAttribution()[|OldAttribution()| - 1] == '3'
    ensures LegacySuffix() == " " + OldAttribution()
    ensures EndsWith(StandaloneFooter(), LegacySuffix())
    ensures forall f :: f in [ProjectFooter(), BilingualFooter(), LegacyFooter(), ProjectSuffix()] ==>
              f != [] && f[|f| - 1] == 't'
  {
    assert StandaloneFooter()[|StandaloneFooter()| - |LegacySuffix()|..] == LegacySuffix();
  }

  lemma DifferentEnding(text: string, end: string, k: nat)
    requires 1 <= k <= |text| && k <= |end| && text[|text| - k] != end[|end| - k]
    ensures !EndsWith(text, end)
  {
  }

  lemma KeptWhole(text: string)
    requires text != [] && !IsSpace(text[|text| - 1])
    requires forall f :: f in Footers() || f in Suffixes() ==> !EndsWith(text, f)
    ensures Strip(text) == text
  {
    hide Footers, Suffixes, Strip;
    assert RStrip(text) == text;
    forall f | f in Footers() ensures text != f && !OnItsOwnLine(text, f) {
      assert text == f ==> EndsWith(text, f);
    }
    StripIsIdempotent(text);
  }

  lemma OldAttributionIsKept(title: string)
    ensures Strip(title + "\n" + OldAttribution()) == title + "\n" + OldAttribution()
  {
    hide Strip, EndsWith, OldAttribution;
    hide ProjectFooter, BilingualFooter, LegacyFooter, ProjectSuffix, LegacySuffix, StandaloneFooter;
    OldAttributionLetters();
    var attribution := OldAttribution();
    var value, k := title + "\n" + attribution, |attribution| + 1;
    assert value[|value| - 1] == '3' && value[|value| - k] == '\n';
    assert LegacySuffix()[|LegacySuffix()| - k] == ' ';
    LegacyInside();
    forall f | f in Footers() || f in Suffixes() ensures !EndsWith(value, f) {
      if f == StandaloneFooter() || f == LegacySuffix() {
        DifferentEnding(value, f, k);
      } else {
        DifferentEnding(value, f, 1);
      }
    }
    KeptWhole(value);
  }

  lemma LegacyInside()
    ensures var k, footer := |OldAttribution()| + 1, StandaloneFooter();
            k <= |footer| && footer[|footer| - k] == ' '
  {
  }

  lemma SuffixIsNotClean(text: string, suffix: string)
    requires suffix in Suffixes() && EndsWith(text, suffix) && text != [] && !IsSpace(text[|text| - 1])
    ensures !Clean(text)
  {
    hide Suffixes, Footers, EndsWith, OnItsOwnLine;
    assert RStrip(text) == text;
  }

  lemma LegacySuffixShape()
    ensures LegacySuffix() == " " + OldAttribution() && LegacySuffix() in Suffixes()
    ensures LegacySuffix() != [] && !IsSpace(LegacySuffix()[|LegacySuffix()| - 1])
  {
  }

  lemma OldAttributionSurfaces(title: string)
    ensures title + " " + OldAttribution() == title + LegacySuffix()
    ensures !Clean(title + LegacySuffix())
  {
    hide *;
    LegacySuffixShape();
    AppendAssociates(title, " ", OldAttribution());
    ConcatEndsWith(title, LegacySuffix());
    SuffixIsNotClean(title + LegacySuffix(), LegacySuffix());
  }

  lemma ConcatEndsWith(text: string, end: string)
    ensures EndsWith(text + end, end)
  {
  }

  lemma OldAttributionHasNoBreak()
    ensures forall c :: c in OldAttribution() ==> !IsBreak(c)
  {
    assert forall i :: 0 <= i < |ProfileUrl()| ==> !IsBreak(ProfileUrl()[i]);
    assert forall i :: 0 <= i < |OldAttribution()| - |ProfileUrl()| ==> !IsBreak(OldAttribution()[i]);
    assert OldAttribution()[|OldAttribution()| - |ProfileUrl()|..] == ProfileUrl();
  }

  /** With one, they can fail: a last line that reads as the old attribution becomes a suffix. */
  lemma LineBreakDefeatsRender(title: string)
    requires |title| <= 10 && forall c :: c in title ==> !IsBreak(c)
    ensures var value := title + "\n" + OldAttribution();
            && Render(value).Ok?
            && Render(Render(value).value) != Render(value)
            && Strip(Render(value).value) != Flatten(Strip(value))
  {
    hide Clean, Strip, OldAttribution;
    var value := title + "\n" + OldAttribution();
    OldAttributionIsKept(title);
    OldAttributionHasNoBreak();
    FlattenJoins(title, OldAttribution());
    OldAttributionSurfaces(title);
    RenderAgain(value);
  }
}
