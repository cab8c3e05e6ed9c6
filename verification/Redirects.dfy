/** Cleaning up addresses found in redirect-like headers. */
module Redirects {
  import opened Options
  import opened Text

  predicate IsQuote(c: char) {
    c == '"' || c == '\''
  }

  predicate IsMark(c: char) {
    c == ',' || c == ';'
  }

  function TrimWrappingQuotes(value: string): (r: string)
    ensures r == value || (|value| >= 2 && IsQuote(value[0]) && value == [value[0]] + r + [value[0]])
    ensures r == value <==> |value| < 2 || !IsQuote(value[0]) || value[|value| - 1] != value[0]
  {
    if |value| < 2 then value
    else
      var first, last := value[0], value[|value| - 1];
      var hasMatchingDouble := first == '"' && last == '"';
      var hasMatchingSingle := first == '\'' && last == '\'';
      if hasMatchingDouble || hasMatchingSingle then value[1..|value| - 1] else value
  }

  function Unmarked(v: string): (r: string)
    ensures |r| <= |v|
    decreases |v|
  {
    var t := TrimEnd(v);
    if t != "" && IsMark(t[|t| - 1]) then Unmarked(TrimEnd(t[..|t| - 1])) else t
  }

  method TrimTrailingRedirectPunctuation(initial: string) returns (trimmed: string)
    ensures trimmed == Unmarked(initial)
  {
    var value := initial;
    while true
      invariant Unmarked(value) == Unmarked(initial)
      decreases |value|
    {
      trimmed := TrimEnd(value);
      if trimmed != "" && IsMark(trimmed[|trimmed| - 1]) {
        value := TrimEnd(trimmed[..|trimmed| - 1]);
        continue;
      }
      return;
    }
  }

  /** Quotes come off in pairs, outermost first, with the white space and punctuation they uncover. */
  function Peeled(c: string): string
    decreases |c|
  {
    var u := Trim(TrimWrappingQuotes(c));
    TrimIsTight(TrimWrappingQuotes(c));
    if u == c || |u| >= |c| then c else Peeled(Unmarked(u))
  }

  function Core(value: string): string {
    Peeled(Unmarked(Trim(value)))
  }

  /** An address that stands for itself. */
  predicate Plain(r: string) {
    && r != "" && r[|r| - 1] != ',' && r[|r| - 1] != ';'
    && forall i :: 0 <= i < |r| ==> !IsSpace(r[i]) && r[i] != '"' && r[i] != '\''
  }

  function Normalized(value: string): Option<string> {
    if Plain(Core(value)) then Some(Core(value)) else None
  }

  predicate AnySpaceOrQuote(s: string) {
    exists i :: 0 <= i < |s| && (IsSpace(s[i]) || IsQuote(s[i]))
  }

  /** Taking off quotes and white space either changes nothing or shortens. */
  lemma PeelingShortens(c: string)
    ensures Tight(c) && Trim(TrimWrappingQuotes(c)) != c ==> |Trim(TrimWrappingQuotes(c))| < |c|
  {
    TrimIsTight(TrimWrappingQuotes(c));
    TrimIsTight(c);
  }

  lemma {:induction false} UnmarkedIsTight(v: string)
    ensures Unmarked(v) == "" || (!IsSpace(Unmarked(v)[|Unmarked(v)| - 1]) && !IsMark(Unmarked(v)[|Unmarked(v)| - 1]))
    ensures Unmarked(v) <= v
    ensures Tight(v) ==> Tight(Unmarked(v))
    decreases |v|
  {
    hide TrimEnd, IsSpace;
    var t := TrimEnd(v);
    if t != "" && IsMark(t[|t| - 1]) {
      UnmarkedIsTight(TrimEnd(t[..|t| - 1]));
    }
  }

  predicate EndsPlainly(c: string) {
    c != "" ==> !IsMark(c[|c| - 1])
  }

  lemma PeelNext(c: string)
    requires Tight(c)
    ensures var u := Trim(TrimWrappingQuotes(c));
            if u == c then Peeled(c) == c
            else |u| < |c| && Peeled(c) == Peeled(Unmarked(u)) && Tight(Unmarked(u)) && EndsPlainly(Unmarked(u))
  {
    PeelingShortens(c);
    TrimIsTight(TrimWrappingQuotes(c));
    UnmarkedIsTight(Trim(TrimWrappingQuotes(c)));
  }

  lemma CoreStarts(value: string)
    ensures var c := Unmarked(Trim(value)); Core(value) == Peeled(c) && Tight(c) && EndsPlainly(c)
    ensures Trim(value) == "" ==> Core(value) == ""
  {
    TrimIsTight(value);
    UnmarkedIsTight(Trim(value));
  }

  method NormalizeRedirectLikeUrlToken(value: string) returns (r: Option<string>)
    ensures r == Normalized(value)
  {
    hide Trim, Unmarked, TrimWrappingQuotes, Peeled, Core, TrimEnd, TrimStart, IsSpace;
    CoreStarts(value);
    var candidate := Trim(value);
    if candidate == "" {
      return None;
    }
    candidate := TrimTrailingRedirectPunctuation(candidate);
    while true
      invariant Peeled(candidate) == Core(value) && Tight(candidate) && EndsPlainly(candidate)
      decreases |candidate|
    {
      var unquoted := Trim(TrimWrappingQuotes(candidate));
      PeelNext(candidate);
      if unquoted == candidate {
        break;
      }
      candidate := TrimTrailingRedirectPunctuation(unquoted);
    }
    if candidate == "" || AnySpaceOrQuote(candidate) {
      return None;
    }
    return Some(candidate);
  }

  // ---------------------------------------------------------------- what normalization means

  /** The ways an address may be dressed up: white space around it, a mark after it, a pair of quotes. */
  datatype Layer = Pad(pre: string, post: string) | Mark(mark: char) | Quoted(quote: char)

  predicate ProperLayer(l: Layer) {
    match l
    case Pad(pre, post) => AllSpace(pre) && AllSpace(post)
    case Mark(c) => c == ',' || c == ';'
    case Quoted(q) => q == '"' || q == '\''
  }

  predicate Proper(layers: seq<Layer>) {
    forall i :: 0 <= i < |layers| ==> ProperLayer(layers[i])
  }

  function Dress(l: Layer, r: string): string {
    match l
    case Pad(pre, post) => pre + r + post
    case Mark(c) => r + [c]
    case Quoted(q) => [q] + r + [q]
  }

  /** The address inside the layers, the first of them outermost. */
  function Dressed(layers: seq<Layer>, r: string): string {
    if |layers| == 0 then r else Dress(layers[0], Dressed(layers[1..], r))
  }

  lemma {:induction false} DressedMore(a: seq<Layer>, b: seq<Layer>, r: string)
    ensures Dressed(a + b, r) == Dressed(a, Dressed(b, r))
  {
    if |a| == 0 {
      assert a + b == b;
    } else {
      assert (a + b)[1..] == a[1..] + b;
      DressedMore(a[1..], b, r);
    }
  }

  /** White space around a value is invisible to trimming. */
  lemma TrimPad(pre: string, v: string, post: string)
    requires AllSpace(pre) && AllSpace(post)
    ensures Trim(pre + v + post) == Trim(v)
  {
    TrimEndOfBlank(pre + v, post);
    TrimEndTail(pre, v);
    if TrimEnd(v) == "" {
      TrimEndOfBlank("", pre);
      assert "" + pre == pre;
    } else {
      TrimStartOfBlank(pre, TrimEnd(v));
    }
  }

  lemma {:induction false} TrimStartOfBlank(blank: string, tail: string)
    requires AllSpace(blank)
    ensures TrimStart(blank + tail) == TrimStart(tail)
  {
    if blank == "" {
      assert blank + tail == tail;
    } else {
      assert (blank + tail)[1..] == blank[1..] + tail;
      TrimStartOfBlank(blank[1..], tail);
    }
  }

  lemma UnmarkedOfPad(v: string, post: string)
    requires AllSpace(post)
    ensures Unmarked(v + post) == Unmarked(v)
  {
    hide TrimEnd, IsSpace;
    TrimEndOfBlank(v, post);
  }

  lemma CoreOfPad(pre: string, v: string, post: string)
    requires AllSpace(pre) && AllSpace(post)
    ensures Core(pre + v + post) == Core(v)
  {
    TrimPad(pre, v, post);
  }

  lemma UnmarkedOfMark(v: string, c: char)
    requires IsMark(c)
    ensures Unmarked(v + [c]) == Unmarked(v)
  {
    var m, t := v + [c], TrimEnd(v);
    assert m[|m| - 1] == c && m[..|m| - 1] == v;
    assert TrimEnd(m) == m;
    hide TrimEnd;
    assert v == t + v[|t|..];
    UnmarkedOfPad(t, v[|t|..]);
  }

  lemma TrimOfMark(v: string, c: char)
    requires IsMark(c)
    ensures Unmarked(Trim(v + [c])) == Unmarked(Trim(v))
  {
    var pre, post := TrimParts(v);
    TrimIsTight(v);
    hide Trim, TrimEnd, TrimStart;
    var t := Trim(v);
    if t == "" {
      assert v + [c] == (pre + post) + [c] + "";
      TrimPad(pre + post, [c], "");
      TrimIsTight([c]);
      UnmarkedOfMark("", c);
      assert "" + [c] == [c];
    } else {
      var core := t + post + [c];
      assert v + [c] == pre + core + "";
      TrimPad(pre, core, "");
      assert core[0] == t[0] && core[|core| - 1] == c;
      TrimIsTight(core);
      UnmarkedOfMark(t + post, c);
      UnmarkedOfPad(t, post);
    }
  }

  lemma UnmarkedOfTight(w: string)
    requires Tight(w) && EndsPlainly(w)
    ensures Unmarked(w) == w
  {}

  lemma CoreOfQuotes(v: string, q: char)
    requires IsQuote(q)
    ensures Core([q] + v + [q]) == Core(v)
  {
    var w := [q] + v + [q];
    assert w[0] == q && w[|w| - 1] == q && w[1..|w| - 1] == v;
    assert Tight(w) && EndsPlainly(w);
    TrimIsTight(w);
    UnmarkedOfTight(w);
    TrimIsTight(v);
    hide Trim, Unmarked;
    assert TrimWrappingQuotes(w) == v;
  }

  /** No layer hides the core. */
  lemma {:induction false} CoreOfDressed(layers: seq<Layer>, r: string)
    requires Proper(layers)
    ensures Core(Dressed(layers, r)) == Core(r)
  {
    if |layers| > 0 {
      var inner := Dressed(layers[1..], r);
      CoreOfDressed(layers[1..], r);
      match layers[0]
      case Pad(pre, post) => CoreOfPad(pre, inner, post);
      case Mark(c) => TrimOfMark(inner, c);
      case Quoted(q) => CoreOfQuotes(inner, q);
    }
  }

  lemma CoreOfPlain(r: string)
    requires Plain(r)
    ensures Core(r) == r
  {
    assert !IsSpace(r[0]) && !IsSpace(r[|r| - 1]);
    TrimIsTight(r);
    assert TrimEnd(r) == r && Unmarked(r) == r;
    assert !IsQuote(r[0]) && TrimWrappingQuotes(r) == r;
  }

  lemma {:induction false} UnmarkedLayers(v: string) returns (layers: seq<Layer>)
    ensures Proper(layers) && v == Dressed(layers, Unmarked(v))
    decreases |v|
  {
    hide TrimEnd, IsSpace, Dressed;
    var t := TrimEnd(v);
    var pad := Pad("", v[|t|..]);
    assert Dress(pad, t) == v;
    if t != "" && IsMark(t[|t| - 1]) {
      var body, mark := t[..|t| - 1], Mark(t[|t| - 1]);
      var u := TrimEnd(body);
      var gap := Pad("", body[|u|..]);
      assert Dress(gap, u) == body && Dress(mark, body) == t;
      var inner := UnmarkedLayers(u);
      ThreeLayers(pad, mark, gap, inner, Unmarked(v));
      layers := [pad, mark, gap] + inner;
    } else {
      OneLayer(pad, t);
      layers := [pad];
    }
  }

  lemma OneLayer(a: Layer, r: string)
    ensures Dressed([a], r) == Dress(a, r)
  {
    assert [a][1..] == [];
  }

  lemma LayerCons(a: Layer, inner: seq<Layer>, r: string)
    ensures Dressed([a] + inner, r) == Dress(a, Dressed(inner, r))
  {
    assert ([a] + inner)[1..] == inner;
  }

  lemma ThreeLayers(a: Layer, b: Layer, c: Layer, inner: seq<Layer>, r: string)
    ensures Dressed([a, b, c] + inner, r) == Dress(a, Dress(b, Dress(c, Dressed(inner, r))))
  {
    LayerCons(a, [b] + ([c] + inner), r);
    LayerCons(b, [c] + inner, r);
    LayerCons(c, inner, r);
    assert [a, b, c] + inner == [a] + ([b] + ([c] + inner));
  }

  /** White space, then marks, then quotes: the layers around what one round of normalization leaves. */
  lemma OneRound(v: string, rest: seq<Layer>, r: string) returns (layers: seq<Layer>)
    requires Proper(rest) && Unmarked(Trim(v)) == Dressed(rest, r)
    ensures Proper(layers) && v == Dressed(layers, r)
  {
    hide Trim, Unmarked, Dressed;
    var pre, post := TrimParts(v);
    var marks := UnmarkedLayers(Trim(v));
    DressedMore(marks, rest, r);
    var pad := Pad(pre, post);
    LayerCons(pad, marks + rest, r);
    layers := [pad] + (marks + rest);
  }

  lemma {:induction false} PeeledLayers(c: string) returns (layers: seq<Layer>)
    ensures Proper(layers) && c == Dressed(layers, Peeled(c))
    decreases |c|
  {
    hide Trim, Unmarked, Dressed;
    var q := TrimWrappingQuotes(c);
    var u := Trim(q);
    TrimIsTight(q);
    if u == c || |u| >= |c| {
      layers := [];
      NoLayers(c);
    } else {
      var inner := PeeledLayers(Unmarked(u));
      layers := OneRound(q, inner, Peeled(c));
      if q != c {
        LayerCons(Quoted(c[0]), layers, Peeled(c));
        layers := [Quoted(c[0])] + layers;
      }
    }
  }

  lemma NoLayers(r: string)
    ensures Dressed([], r) == r
  {}

  /** Every value is its core in some layers. */
  lemma CoreLayers(v: string) returns (layers: seq<Layer>)
    ensures Proper(layers) && v == Dressed(layers, Core(v))
  {
    hide Trim, Unmarked, Peeled, Dressed;
    var inner := PeeledLayers(Unmarked(Trim(v)));
    layers := OneRound(v, inner, Core(v));
  }

  /**
   * Normalization gives r exactly for the values that are r, an address without white space, quotes or a mark
   * at its end, dressed in any number of layers.
   */
  lemma NormalizedExactly(v: string, r: string)
    ensures Normalized(v) == Some(r) <==> Plain(r) && exists layers :: Proper(layers) && v == Dressed(layers, r)
  {
    if Normalized(v) == Some(r) {
      var layers := CoreLayers(v);
    }
    if Plain(r) {
      CoreOfPlain(r);
      forall layers | Proper(layers) && v == Dressed(layers, r)
        ensures Normalized(v) == Some(r)
      {
        CoreOfDressed(layers, r);
      }
    }
  }

  /** Its results are its fixed points, and they are all the plain addresses. */
  lemma NormalizedIsStable(v: string)
    ensures Normalized(v).Some? ==> Normalized(Normalized(v).value) == Normalized(v)
    ensures Normalized(v) == Some(v) <==> Plain(v)
  {
    if Plain(Core(v)) {
      CoreOfPlain(Core(v));
    }
    if Plain(v) {
      CoreOfPlain(v);
    }
  }
}
