/**
 * `extractProductId` and the input checks of `handleAnalyze` in
 * app/analysis/page.tsx. Each regular expression is an explicit matcher: a
 * literal followed by a maximal run of the ID characters `[A-Z0-9-]`, tried
 * at the leftmost position where it can match.
 */
module ProductId {
  import opened Wrappers
  import opened Text

  /** `[A-Z0-9-]`. */
  predicate IsIdChar(c: char) {
    ('A' <= c <= 'Z') || ('0' <= c <= '9') || c == '-'
  }

  predicate AllId(s: string) {
    forall i :: 0 <= i < |s| ==> IsIdChar(s[i])
  }

  /** The first index in `[from, n)` where `p` holds, as a left-to-right regex scan finds it. */
  function FirstWhere(n: nat, p: nat -> bool, from: nat): (r: Option<nat>)
    requires from <= n
    ensures r.Some? ==> from <= r.value < n && p(r.value)
    ensures r.Some? ==> forall j :: from <= j < r.value ==> !p(j)
    ensures r.None? ==> forall j :: from <= j < n ==> !p(j)
    decreases n - from
  {
    if from == n then None
    else if p(from) then Some(from)
    else FirstWhere(n, p, from + 1)
  }

  /** The length of the run of ID characters starting at `start`: `[A-Z0-9-]+` is greedy. */
  function IdRun(s: string, start: nat): (n: nat)
    requires start <= |s|
    ensures start + n <= |s|
    ensures AllId(s[start..start + n])
    ensures start + n < |s| ==> !IsIdChar(s[start + n])
    decreases |s| - start
  {
    if start < |s| && IsIdChar(s[start]) then
      var n := 1 + IdRun(s, start + 1);
      assert s[start..start + n] == [s[start]] + s[start + 1..start + n];
      n
    else 0
  }

  /** The captured group: the maximal ID run at `start`. */
  function Capture(s: string, start: nat): (id: string)
    requires start <= |s|
    ensures start + |id| <= |s| && id == s[start..start + |id|]
    ensures AllId(id)
    ensures start + |id| < |s| ==> !IsIdChar(s[start + |id|])
    ensures start < |s| && IsIdChar(s[start]) ==> |id| > 0
  {
    s[start..start + IdRun(s, start)]
  }

  /** A run of ID characters ended by the end of `s` or a non-ID character is exactly what the greedy run takes. */
  lemma {:induction false} IdRunExact(s: string, start: nat, n: nat)
    requires start + n <= |s|
    requires AllId(s[start..start + n])
    requires start + n < |s| ==> !IsIdChar(s[start + n])
    ensures IdRun(s, start) == n
    decreases n
  {
    if n > 0 {
      assert s[start..start + n][0] == s[start];
      assert s[start + 1..start + n] == s[start..start + n][1..];
      IdRunExact(s, start + 1, n - 1);
    }
  }

  /** `lit` followed by at least one ID character starts at index `i`. */
  predicate LiteralThenId(s: string, lit: string, i: nat) {
    OccursAt(s, lit, i) && i + |lit| < |s| && IsIdChar(s[i + |lit|])
  }

  /** `id` is the group captured at `i`, the leftmost position where `lit` and an ID character start. */
  predicate CapturedAt(s: string, lit: string, i: nat, id: string) {
    LiteralThenId(s, lit, i) &&
    (forall j :: 0 <= j < i ==> !LiteralThenId(s, lit, j)) &&
    id == Capture(s, i + |lit|)
  }

  /** `/lit([A-Z0-9-]+)/`: the run after the leftmost occurrence of `lit` that an ID character follows. */
  function MatchLiteral(s: string, lit: string): (r: Option<string>)
    ensures r.Some? ==> |r.value| > 0 && AllId(r.value)
    ensures r.Some? ==> exists i :: CapturedAt(s, lit, i, r.value)
    ensures r.None? <==> forall i :: 0 <= i < |s| ==> !LiteralThenId(s, lit, i)
  {
    var p := (i: nat) => LiteralThenId(s, lit, i);
    assert forall i :: 0 <= i < |s| ==> p(i) == LiteralThenId(s, lit, i);
    match FirstWhere(|s|, p, 0)
    case None => None
    case Some(i) =>
      assert CapturedAt(s, lit, i, Capture(s, i + |lit|));
      Some(Capture(s, i + |lit|))
  }

  /** A slash at `i` followed by a non-empty tail of ID characters only, up to the end. */
  predicate SlashThenIdToEnd(s: string, i: nat) {
    i + 1 < |s| && s[i] == '/' && AllId(s[i + 1..])
  }

  /** `/\/([A-Z0-9-]+)$/`: the non-empty all-ID text after the last slash. */
  function MatchEnd(s: string): (r: Option<string>)
    ensures r.Some? ==> |r.value| > 0 && AllId(r.value)
    ensures r.Some? ==> exists i :: SlashThenIdToEnd(s, i) && r.value == s[i + 1..]
    ensures r.None? <==> forall i :: 0 <= i < |s| ==> !SlashThenIdToEnd(s, i)
  {
    var p := (i: nat) => SlashThenIdToEnd(s, i);
    assert forall i :: 0 <= i < |s| ==> p(i) == SlashThenIdToEnd(s, i);
    match FirstWhere(|s|, p, 0)
    case None => None
    case Some(i) => Some(s[i + 1..])
  }

  /** `/^[A-Z0-9-]+$/.test(url.trim())`, returning the trimmed text. */
  function MatchWhole(s: string): (r: Option<string>)
    ensures r.Some? <==> |Trim(s)| > 0 && AllId(Trim(s))
    ensures r.Some? ==> r.value == Trim(s)
  {
    var t := Trim(s);
    if |t| > 0 && AllId(t) then Some(t) else None
  }

  /**
   * `extractProductId`: the patterns `/p/<ID>`, `/<ID>` at the very end,
   * `item/<ID>` and the whole trimmed input, in that order; the first that
   * matches decides. A result is never empty and holds ID characters only.
   */
  function ExtractProductId(url: string): (r: Option<string>)
    ensures r.Some? ==> |r.value| > 0 && AllId(r.value)
    ensures MatchLiteral(url, "/p/").Some? ==> r == MatchLiteral(url, "/p/")
    ensures MatchLiteral(url, "/p/").None? && MatchEnd(url).Some? ==> r == MatchEnd(url)
    ensures MatchLiteral(url, "/p/").None? && MatchEnd(url).None? && MatchLiteral(url, "item/").Some? ==>
              r == MatchLiteral(url, "item/")
    ensures r.None? <==>
              MatchLiteral(url, "/p/").None? && MatchEnd(url).None? &&
              MatchLiteral(url, "item/").None? && MatchWhole(url).None?
  {
    var p := MatchLiteral(url, "/p/");
    if p.Some? then p
    else
      var e := MatchEnd(url);
      if e.Some? then e
      else
        var item := MatchLiteral(url, "item/");
        if item.Some? then item
        else MatchWhole(url)
  }

  /** No literal containing a slash matches a string without slashes. */
  lemma NoSlashNoLiteral(s: string, lit: string)
    requires '/' in lit
    requires forall i :: 0 <= i < |s| ==> s[i] != '/'
    ensures MatchLiteral(s, lit).None?
  {
    var k :| 0 <= k < |lit| && lit[k] == '/';
    forall i | 0 <= i <= |s|
      ensures !OccursAt(s, lit, i)
    {
      if i + |lit| <= |s| {
        assert s[i..i + |lit|][k] == s[i + k] != lit[k];
      }
    }
  }

  /** A string whose trim is all ID characters contains no slash. */
  lemma TrimmedIdHasNoSlash(s: string)
    requires AllId(Trim(s))
    ensures forall i :: 0 <= i < |s| ==> s[i] != '/'
  {
    var ts := TrimStart(s);
    var t := TrimEnd(ts);
    forall i | 0 <= i < |s|
      ensures s[i] != '/'
    {
      var a := |s| - |ts|;
      if i < a {
        assert s[..a][i] == s[i];
      } else if i - a < |t| {
        assert ts[i - a] == s[i];
        assert t[i - a] == ts[i - a];
      } else {
        assert ts[|t|..][i - a - |t|] == ts[i - a];
        assert ts[i - a] == s[i];
      }
    }
  }

  /** A bare ID, with or without surrounding blanks, comes back trimmed. */
  lemma BareIdIsTrimmed(s: string)
    requires |Trim(s)| > 0 && AllId(Trim(s))
    ensures ExtractProductId(s) == Some(Trim(s))
  {
    TrimmedIdHasNoSlash(s);
    NoSlashNoLiteral(s, "/p/");
    NoSlashNoLiteral(s, "item/");
    assert "/p/"[0] == '/';
    assert "item/"[4] == '/';
  }

  /** A URL ending in `/<ID>` with no `/p/` pattern yields exactly that ID. */
  lemma EndAnchored(prefix: string, id: string)
    requires |id| > 0 && AllId(id)
    requires MatchLiteral(prefix + "/" + id, "/p/").None?
    ensures ExtractProductId(prefix + "/" + id) == Some(id)
  {
    var s := prefix + "/" + id;
    var k := |prefix|;
    assert SlashThenIdToEnd(s, k) by {
      assert s[k + 1..] == id;
    }
    forall j | 0 <= j < k
      ensures !SlashThenIdToEnd(s, j)
    {
      if j + 1 < |s| {
        assert s[j + 1..][k - j - 1] == s[k];
        assert !IsIdChar(s[k]);
      }
    }
    assert s[k + 1..] == id;
  }

  /**
   * `lit` followed by an ID that ends at the end of the input or before a
   * non-ID character captures exactly that ID, when no earlier position
   * starts a match.
   */
  lemma LiteralAnchored(prefix: string, lit: string, id: string, rest: string)
    requires |id| > 0 && AllId(id)
    requires |rest| == 0 || !IsIdChar(rest[0])
    requires forall j :: 0 <= j < |prefix| ==> !LiteralThenId(prefix + lit + id + rest, lit, j)
    ensures MatchLiteral(prefix + lit + id + rest, lit) == Some(id)
  {
    var s := prefix + lit + id + rest;
    Layout(s, prefix, lit, id, rest);
    AnchoredAt(s, lit, |prefix|, id);
  }

  /** An ID that sits right after `lit` at the leftmost match and ends before a non-ID character is the capture. */
  lemma AnchoredAt(s: string, lit: string, k: nat, id: string)
    requires OccursAt(s, lit, k)
    requires |id| > 0 && AllId(id)
    requires k + |lit| + |id| <= |s| && s[k + |lit|..k + |lit| + |id|] == id
    requires k + |lit| + |id| < |s| ==> !IsIdChar(s[k + |lit| + |id|])
    requires forall j :: 0 <= j < k ==> !LiteralThenId(s, lit, j)
    ensures MatchLiteral(s, lit) == Some(id)
  {
    var start := k + |lit|;
    assert s[start] == s[start..start + |id|][0];
    assert LiteralThenId(s, lit, k);
    IdRunExact(s, start, |id|);
    assert Capture(s, start) == id;
    LeftmostCapture(s, lit, k);
  }

  /** Where the pieces of `prefix + lit + id + rest` sit. */
  lemma Layout(s: string, prefix: string, lit: string, id: string, rest: string)
    requires s == prefix + lit + id + rest
    ensures |s| == |prefix| + |lit| + |id| + |rest|
    ensures OccursAt(s, lit, |prefix|)
    ensures s[|prefix| + |lit|..|prefix| + |lit| + |id|] == id
    ensures |rest| > 0 ==> s[|prefix| + |lit| + |id|] == rest[0]
  {
    var k := |prefix|;
    assert s[k..k + |lit|] == lit;
    assert s[k + |lit|..k + |lit| + |id|] == id;
    if |rest| > 0 {
      assert s[k + |lit| + |id|] == rest[0];
    }
  }

  /** The match is decided at the leftmost position where `lit` and an ID character start. */
  lemma LeftmostCapture(s: string, lit: string, k: nat)
    requires LiteralThenId(s, lit, k)
    requires forall j :: 0 <= j < k ==> !LiteralThenId(s, lit, j)
    ensures MatchLiteral(s, lit) == Some(Capture(s, k + |lit|))
  {
    var r := MatchLiteral(s, lit);
    assert r.Some?;
    var i: nat :| CapturedAt(s, lit, i, r.value);
    assert i == k by {
      assert i < k ==> !LiteralThenId(s, lit, i);
      assert k < i ==> !LiteralThenId(s, lit, k);
    }
  }

  /** A product-page URL `<prefix>/p/<ID><rest>` yields exactly that ID. */
  lemma PathAnchored(prefix: string, id: string, rest: string)
    requires |id| > 0 && AllId(id)
    requires |rest| == 0 || !IsIdChar(rest[0])
    requires forall j :: 0 <= j < |prefix| ==> !LiteralThenId(prefix + "/p/" + id + rest, "/p/", j)
    ensures ExtractProductId(prefix + "/p/" + id + rest) == Some(id)
  {
    LiteralAnchored(prefix, "/p/", id, rest);
  }

  /** Trailing whitespace defeats the end-anchored pattern. */
  lemma TrailingBlankDefeatsEnd(s: string)
    requires |s| > 0 && IsWhitespace(s[|s| - 1])
    ensures MatchEnd(s).None?
  {
    forall i | 0 <= i <= |s|
      ensures !SlashThenIdToEnd(s, i)
    {
      if i + 1 < |s| {
        assert s[i + 1..][|s| - i - 2] == s[|s| - 1];
      }
    }
  }

  /** What clicking "analyse" does with the input. */
  datatype AnalyzeStep = Rejected(message: string) | Request(productId: string)

  const BlankInputMessage := "Por favor, insira uma URL ou ID do produto"
  const InvalidUrlMessage := "URL inválida. Use uma URL do Mercado Livre ou o ID do produto"

  /**
   * `handleAnalyze` up to the request: a blank input and an input no pattern
   * matches are rejected with their messages and send nothing; otherwise the
   * extracted ID is posted.
   */
  function HandleAnalyze(input: string): (step: AnalyzeStep)
    ensures IsBlank(input) ==> step == Rejected(BlankInputMessage)
    ensures !IsBlank(input) && ExtractProductId(input).None? ==> step == Rejected(InvalidUrlMessage)
    ensures step.Request? <==> !IsBlank(input) && ExtractProductId(input).Some?
    ensures step.Request? ==> Some(step.productId) == ExtractProductId(input)
    ensures step.Request? ==> |step.productId| > 0 && AllId(step.productId)
  {
    if IsBlank(input) then Rejected(BlankInputMessage)
    else
      match ExtractProductId(input)
      case None => Rejected(InvalidUrlMessage)
      case Some(id) => Request(id)
  }
}
