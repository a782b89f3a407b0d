/** `fillTemplate`: six global placeholder substitutions applied one after
    the other, each value falling back to a fixed default when missing. */
module MailTemplate {
  import opened JsRuntime

  /** The fields of the `data` argument; a missing field is the empty string
      (both are falsy, so both take the default). */
  datatype MailData = MailData(title: string, name: string, message: string,
                               ctaLink: string, ctaText: string, note: string)

  const DefaultTitle := "Bienvenido a Colibri"
  const DefaultName := "usuario"
  const DefaultMessage := "¡Gracias por unirte a Colibri! Estamos emocionados de tenerte con nosotros."
  const DefaultCtaLink := "#"
  const DefaultCtaText := "Comenzar"
  const DefaultNote := "Si no solicitaste este correo, puedes ignorarlo."

  /** The placeholder for a field name: `{{name}}`. */
  function Placeholder(word: string): (p: string)
    ensures |p| == |word| + 4 && p[0] == '{' && p[1] == '{'
  {
    "{{" + word + "}}"
  }

  /** The field names, in the order in which they are substituted. */
  const Words: seq<string> := ["title", "name", "message", "cta_link", "cta_text", "note"]

  /** The replacement for each placeholder, in substitution order. */
  function Values(data: MailData): (vs: seq<string>)
    ensures |vs| == |Words|
  {
    [OrDefault(data.title, DefaultTitle), OrDefault(data.name, DefaultName),
     OrDefault(data.message, DefaultMessage), OrDefault(data.ctaLink, DefaultCtaLink),
     OrDefault(data.ctaText, DefaultCtaText), OrDefault(data.note, DefaultNote)]
  }

  /** The chained `replace` calls from the `k`-th on. */
  function ApplyFrom(t: string, vs: seq<string>, k: nat): string
    requires |vs| == |Words| && k <= |Words|
    decreases |Words| - k
  {
    if k == |Words| then t
    else ApplyFrom(ReplaceAll(t, Placeholder(Words[k]), vs[k]), vs, k + 1)
  }

  /** `fillTemplate(data, template)`. */
  function FillTemplate(data: MailData, template: string): (r: string)
    ensures (forall j :: 0 <= j < |Words| ==> !Contains(template, Placeholder(Words[j]))) ==> r == template
  {
    var r := ApplyFrom(template, Values(data), 0);
    if forall j :: 0 <= j < |Words| ==> !Contains(template, Placeholder(Words[j])) then
      NoPlaceholderUnchanged(data, template, 0);
      r
    else r
  }

  /** The module's own template, reduced to its placeholders in the order in
      which they appear in the HTML (the title appears twice: in the page
      title and in the heading). */
  const EmailTemplate := Placeholder("title") + (Placeholder("title") + (Placeholder("name") + (Placeholder("message")
                         + (Placeholder("cta_link") + (Placeholder("cta_text") + Placeholder("note"))))))

  /** `fillTemplate(data)`: the template argument defaults to `emailTemplate`. */
  function FillDefault(data: MailData): string {
    FillTemplate(data, EmailTemplate)
  }

  // ------------------------------------------------------------ proofs

  predicate NoBraces(s: string) {
    forall i :: 0 <= i < |s| ==> s[i] != '{' && s[i] != '}'
  }

  predicate NoOpenBrace(s: string) {
    forall i :: 0 <= i < |s| ==> s[i] != '{'
  }

  /** A text with no `{` is left as it is by every remaining substitution. */
  lemma {:induction false} ApplyFromBraceFree(t: string, vs: seq<string>, k: nat)
    requires |vs| == |Words| && k <= |Words|
    requires NoOpenBrace(t)
    ensures ApplyFrom(t, vs, k) == t
    decreases |Words| - k
  {
    if k < |Words| {
      LacksFirstChar(t, Placeholder(Words[k]));
      ReplaceAllAbsent(t, Placeholder(Words[k]), vs[k]);
      ApplyFromBraceFree(t, vs, k + 1);
    }
  }

  /** In `{{a}}`, a pattern starting with `{{` can only occur at the start. */
  lemma OnlyAtStart(a: string, p: string)
    requires NoBraces(a)
    requires |p| >= 2 && p[0] == '{' && p[1] == '{'
    ensures Contains(Placeholder(a), p) ==> StartsWith(Placeholder(a), p)
  {
    var s := Placeholder(a);
    if Contains(s, p) && !StartsWith(s, p) {
      assert Contains(s[1..], p);
      assert !StartsWith(s[1..], p) by {
        if |s[1..]| >= 2 { assert s[1..][1] == s[2]; }
      }
      assert Contains(s[2..], p);
      assert forall i :: 0 <= i < |s[2..]| ==> s[2..][i] != p[0] by {
        forall i | 0 <= i < |s[2..]| ensures s[2..][i] != p[0] {
          assert s[2..][i] == s[i + 2];
          if i < |a| { assert s[i + 2] == a[i]; }
        }
      }
      LacksFirstChar(s[2..], p);
    }
  }

  /** Where the letters and the closing braces of a placeholder sit. */
  lemma PlaceholderChars(a: string)
    ensures forall i :: 0 <= i < |a| ==> Placeholder(a)[i + 2] == a[i]
    ensures Placeholder(a)[|a| + 2] == '}'
    ensures Placeholder(a)[2..|a| + 2] == a
  {
  }

  /** A prefix agrees with the text it starts, position by position. */
  lemma PrefixAt(s: string, p: string, i: int)
    ensures StartsWith(s, p) && 0 <= i < |p| ==> s[i] == p[i]
  {
    if StartsWith(s, p) && 0 <= i < |p| {
      assert s[..|p|][i] == s[i];
    }
  }

  /** Two different brace-free field names give placeholders that do not
      occur in each other. */
  lemma PlaceholderDistinct(a: string, b: string)
    requires NoBraces(a) && NoBraces(b) && a != b
    ensures !Contains(Placeholder(a), Placeholder(b))
  {
    var s, p := Placeholder(a), Placeholder(b);
    OnlyAtStart(a, p);
    PlaceholderChars(a);
    PlaceholderChars(b);
    PrefixAt(s, p, |b| + 2);
    if |a| == |b| {
      SamePrefix(s, p);
    }
  }

  /** A prefix of the same length is the whole text. */
  lemma SamePrefix(s: string, p: string)
    ensures StartsWith(s, p) && |s| == |p| ==> s == p
  {
  }

  lemma WordsBraceFree()
    ensures forall k :: 0 <= k < |Words| ==> NoBraces(Words[k])
  {
  }

  /** A placeholder is left alone by the substitutions of the other fields. */
  lemma {:induction false} ApplyFromOther(k: nat, vs: seq<string>, j: nat)
    requires |vs| == |Words| && k < |Words| && j <= k
    ensures ApplyFrom(Placeholder(Words[k]), vs, j) == ApplyFrom(Placeholder(Words[k]), vs, k)
    decreases k - j
  {
    if j < k {
      WordsBraceFree();
      assert Words[j] != Words[k];
      PlaceholderDistinct(Words[k], Words[j]);
      ReplaceAllAbsent(Placeholder(Words[k]), Placeholder(Words[j]), vs[j]);
      ApplyFromOther(k, vs, j + 1);
    }
  }

  lemma ReplaceWhole(p: string, v: string)
    requires p != []
    ensures ReplaceAll(p, p, v) == v
  {
    assert p[..|p|] == p && p[|p|..] == [];
    assert ReplaceAll([], p, v) == [];
    assert v + [] == v;
  }

  /** A template made of one placeholder becomes that field's value, or its
      default when the field is missing or empty (for values without `{`). */
  lemma FillOnePlaceholder(data: MailData, k: nat)
    requires k < |Words|
    requires NoOpenBrace(Values(data)[k])
    ensures FillTemplate(data, Placeholder(Words[k])) == Values(data)[k]
  {
    var vs := Values(data);
    var p := Placeholder(Words[k]);
    ApplyFromOther(k, vs, 0);
    ReplaceWhole(p, vs[k]);
    ApplyFromBraceFree(vs[k], vs, k + 1);
  }

  /** A missing name is replaced by "usuario". */
  lemma MissingNameDefault(data: MailData)
    requires data.name == ""
    ensures FillTemplate(data, "{{name}}") == DefaultName
  {
    FillOnePlaceholder(data, 1);
  }

  /** A template without any placeholder is returned unchanged. */
  lemma {:induction false} NoPlaceholderUnchanged(data: MailData, template: string, k: nat)
    requires k <= |Words|
    requires forall j :: k <= j < |Words| ==> !Contains(template, Placeholder(Words[j]))
    ensures ApplyFrom(template, Values(data), k) == template
    decreases |Words| - k
  {
    if k < |Words| {
      ReplaceAllAbsent(template, Placeholder(Words[k]), Values(data)[k]);
      NoPlaceholderUnchanged(data, template, k + 1);
    }
  }

  /** Substitution order matters: a title holding `{{name}}` has that
      placeholder filled in too, because names are substituted after titles. */
  lemma TitleSubstitutedAgain(data: MailData)
    requires data.title == Placeholder("name") && data.name == ""
    ensures FillTemplate(data, Placeholder("title")) == DefaultName
  {
    var vs := Values(data);
    var e := data.(title := "");
    var ws := Values(e);
    ReplaceWhole(Placeholder("title"), vs[0]);
    assert ApplyFrom(Placeholder("title"), vs, 0) == ApplyFrom(Placeholder("name"), vs, 1);
    assert vs[1..] == ws[1..];
    ApplyFromSuffix(Placeholder("name"), vs, ws, 1);
    ApplyFromOther(1, ws, 0);
    FillOnePlaceholder(e, 1);
  }

  lemma TitleNotInLater()
    ensures forall j :: 2 <= j < |Words| ==> !Contains(Placeholder("title"), Placeholder(Words[j]))
  {
    WordsBraceFree();
    forall j | 2 <= j < |Words| ensures !Contains(Placeholder("title"), Placeholder(Words[j])) {
      PlaceholderDistinct("title", Words[j]);
    }
  }

  /** The converse order: a name holding `{{title}}` keeps that placeholder,
      because titles were substituted before names. */
  lemma NameNotSubstitutedAgain(data: MailData)
    requires data.name == Placeholder("title")
    ensures FillTemplate(data, Placeholder("name")) == Placeholder("title")
  {
    var vs := Values(data);
    ApplyFromOther(1, vs, 0);
    ReplaceWhole(Placeholder("name"), vs[1]);
    assert ApplyFrom(Placeholder("name"), vs, 1) == ApplyFrom(Placeholder("title"), vs, 2);
    TitleNotInLater();
    NoPlaceholderUnchanged(data, Placeholder("title"), 2);
  }

  /** No other placeholder starts inside a placeholder, even when text
      follows it: the braces and the letters of two different brace-free
      names never line up. */
  lemma NoPlaceholderInside(a: string, b: string, y: string)
    requires NoBraces(a) && NoBraces(b) && a != b
    ensures forall i :: 0 <= i < |Placeholder(a)| ==> !StartsWith((Placeholder(a) + y)[i..], Placeholder(b))
  {
    var x, p := Placeholder(a), Placeholder(b);
    PlaceholderChars(a);
    PlaceholderChars(b);
    forall i | 0 <= i < |x| ensures !StartsWith((x + y)[i..], p) {
      var t := (x + y)[i..];
      if i == 0 {
        if |p| <= |x| {
          assert t[..|p|] == x[..|p|];
          PlaceholderDistinct(a, b);
          assert !StartsWith(x, p);
        } else {
          assert t[|a| + 2] == x[|a| + 2];
          Mismatch(t, p, |a| + 2);
        }
      } else if i == 1 {
        assert t[1] == x[2];
        if |a| > 0 { assert x[2] == a[0]; }
        Mismatch(t, p, 1);
      } else {
        assert t[0] == x[i];
        if i < |a| + 2 { assert x[i] == a[i - 2]; }
        Mismatch(t, p, 0);
      }
    }
  }

  /** A text differing from a pattern at one of the pattern's positions does
      not start with it. */
  lemma Mismatch(t: string, p: string, j: int)
    ensures 0 <= j < |p| && (j >= |t| || t[j] != p[j]) ==> !StartsWith(t, p)
  {
    if 0 <= j < |p| && j < |t| && StartsWith(t, p) {
      assert t[..|p|][j] == t[j];
    }
  }

  /** A template piece that is a placeholder of one of the fields, or text
      without `{`. */
  predicate Piece(x: string) {
    NoOpenBrace(x) || exists m :: 0 <= m < |Words| && x == Placeholder(Words[m])
  }

  /** One substitution step turns a piece into a piece. */
  lemma ReplacePiece(x: string, y: string, vs: seq<string>, k: nat)
    requires |vs| == |Words| && k < |Words| && NoOpenBrace(vs[k])
    requires Piece(x)
    ensures var p := Placeholder(Words[k]);
            ReplaceAll(x + y, p, vs[k]) == ReplaceAll(x, p, vs[k]) + ReplaceAll(y, p, vs[k])
            && Piece(ReplaceAll(x, p, vs[k]))
  {
    var p := Placeholder(Words[k]);
    WordsBraceFree();
    if NoOpenBrace(x) {
      LacksFirstChar(x, p);
      ReplaceAllAbsent(x, p, vs[k]);
      forall i | 0 <= i < |x| ensures !StartsWith((x + y)[i..], p) {
        assert (x + y)[i..][0] == x[i];
      }
      ReplaceAllSkip(x, y, p, vs[k]);
    } else {
      var m :| 0 <= m < |Words| && x == Placeholder(Words[m]);
      if m == k {
        ReplaceWhole(p, vs[k]);
        assert (x + y)[..|p|] == p && (x + y)[|p|..] == y;
      } else {
        PlaceholderDistinct(Words[m], Words[k]);
        ReplaceAllAbsent(x, p, vs[k]);
        NoPlaceholderInside(Words[m], Words[k], y);
        ReplaceAllSkip(x, y, p, vs[k]);
      }
    }
  }

  /** With values free of `{`, the chained substitutions fill a template
      piece by piece: a placeholder or plain text at the front is filled on
      its own. */
  lemma {:induction false} ApplyFromConcat(x: string, y: string, vs: seq<string>, k: nat)
    requires |vs| == |Words| && k <= |Words|
    requires forall j :: 0 <= j < |Words| ==> NoOpenBrace(vs[j])
    requires Piece(x)
    ensures ApplyFrom(x + y, vs, k) == ApplyFrom(x, vs, k) + ApplyFrom(y, vs, k)
    decreases |Words| - k
  {
    if k < |Words| {
      var p := Placeholder(Words[k]);
      ReplacePiece(x, y, vs, k);
      ApplyFromConcat(ReplaceAll(x, p, vs[k]), ReplaceAll(y, p, vs[k]), vs, k + 1);
    }
  }

  /** A placeholder in front of a template: with values free of `{`, it is
      filled on its own and the rest is filled as before. */
  lemma FillPiece(data: MailData, k: nat, t: string)
    requires k < |Words|
    requires forall j :: 0 <= j < |Words| ==> NoOpenBrace(Values(data)[j])
    ensures FillTemplate(data, Placeholder(Words[k]) + t) == Values(data)[k] + FillTemplate(data, t)
  {
    assert Piece(Placeholder(Words[k]));
    FillOnePlaceholder(data, k);
    ApplyFromConcat(Placeholder(Words[k]), t, Values(data), 0);
  }

  /** The module's own template, filled with values free of `{`: the title
      twice, then the name, the message, the link, the button text and the
      note, each being the field's value or its default. */
  lemma FillDefaultFields(data: MailData)
    requires forall j :: 0 <= j < |Words| ==> NoOpenBrace(Values(data)[j])
    ensures var vs := Values(data);
            FillDefault(data) == vs[0] + (vs[0] + (vs[1] + (vs[2] + (vs[3] + (vs[4] + vs[5])))))
  {
    var vs := Values(data);
    var p0, p1, p2 := Placeholder(Words[0]), Placeholder(Words[1]), Placeholder(Words[2]);
    var p3, p4, p5 := Placeholder(Words[3]), Placeholder(Words[4]), Placeholder(Words[5]);
    assert EmailTemplate == p0 + (p0 + (p1 + (p2 + (p3 + (p4 + p5)))));
    FillOnePlaceholder(data, 5);
    FillPiece(data, 4, p5);
    FillPiece(data, 3, p4 + p5);
    FillPiece(data, 2, p3 + (p4 + p5));
    FillPiece(data, 1, p2 + (p3 + (p4 + p5)));
    FillPiece(data, 0, p1 + (p2 + (p3 + (p4 + p5))));
    FillPiece(data, 0, p0 + (p1 + (p2 + (p3 + (p4 + p5)))));
  }

  /** Only the substitutions from `k` on matter to `ApplyFrom(_, _, k)`. */
  lemma {:induction false} ApplyFromSuffix(t: string, vs: seq<string>, ws: seq<string>, k: nat)
    requires |vs| == |Words| && |ws| == |Words| && k <= |Words|
    requires vs[k..] == ws[k..]
    ensures ApplyFrom(t, vs, k) == ApplyFrom(t, ws, k)
    decreases |Words| - k
  {
    if k < |Words| {
      assert vs[k] == vs[k..][0] == ws[k..][0] == ws[k];
      assert vs[k + 1..] == vs[k..][1..];
      assert ws[k + 1..] == ws[k..][1..];
      ApplyFromSuffix(ReplaceAll(t, Placeholder(Words[k]), vs[k]), vs, ws, k + 1);
    }
  }
}
