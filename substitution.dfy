/**
 * A chain of global replacements `s.replace(/P0/g, V0).replace(/P1/g, V1)…`, as the invoice
 * renderer fills its HTML template, and the condition under which the chain does what a
 * template engine promises: every placeholder occurrence in the template becomes its value.
 */
module Substitution {
  import opened Text

  /** One `.replace(/placeholder/g, value)` step. */
  datatype Sub = Sub(placeholder: string, value: string)

  predicate NonEmptyPlaceholders(subs: seq<Sub>) {
    forall k :: 0 <= k < |subs| ==> subs[k].placeholder != []
  }

  /** The first `n` steps of the chain applied to `s`, in order. */
  function ApplyFirst(s: string, subs: seq<Sub>, n: nat): string
    requires NonEmptyPlaceholders(subs) && n <= |subs|
  {
    if n == 0 then s
    else ReplaceAll(ApplyFirst(s, subs, n - 1), subs[n - 1].placeholder, subs[n - 1].value)
  }

  function ApplyAll(s: string, subs: seq<Sub>): string
    requires NonEmptyPlaceholders(subs)
  {
    ApplyFirst(s, subs, |subs|)
  }

  lemma ApplyNext(s: string, subs: seq<Sub>, n: nat)
    requires NonEmptyPlaceholders(subs) && n < |subs|
    ensures ApplyFirst(s, subs, n + 1) == ReplaceAll(ApplyFirst(s, subs, n), subs[n].placeholder, subs[n].value)
  {
  }

  /** A template seen as literal text and holes; hole `k` stands for the placeholder of step `k`. */
  datatype Segment = Lit(text: string) | Hole(index: nat)

  predicate HolesFit(segs: seq<Segment>, subs: seq<Sub>) {
    forall j :: 0 <= j < |segs| && segs[j].Hole? ==> segs[j].index < |subs|
  }

  /** The text of one segment once the first `filled` steps have run. */
  function Piece(seg: Segment, subs: seq<Sub>, filled: nat): string
    requires seg.Hole? ==> seg.index < |subs|
  {
    match seg
    case Lit(t) => t
    case Hole(k) => if k < filled then subs[k].value else subs[k].placeholder
  }

  /**
   * The document with holes `0 .. filled-1` replaced by their values and the others still
   * showing their placeholders: `Render(segs, subs, 0)` is the template and
   * `Render(segs, subs, |subs|)` the filled document.
   */
  function Render(segs: seq<Segment>, subs: seq<Sub>, filled: nat): string
    requires HolesFit(segs, subs)
  {
    if segs == [] then "" else Piece(segs[0], subs, filled) + Render(segs[1..], subs, filled)
  }

  /**
   * The steps do not interfere: placeholders are non-empty, no later placeholder can be
   * mistaken for an earlier one, and no inserted value can start a later placeholder.
   */
  predicate StepsIndependent(subs: seq<Sub>) {
    && NonEmptyPlaceholders(subs)
    && (forall k, j :: 0 <= k < j < |subs| ==> Clean(subs[j].placeholder, subs[k].placeholder))
    && (forall k, j :: 0 <= k < j < |subs| ==> Clean(subs[k].value, subs[j].placeholder))
  }

  /** The literal text of the template cannot start any placeholder. */
  predicate LiteralsClean(segs: seq<Segment>, subs: seq<Sub>) {
    forall j, k :: 0 <= j < |segs| && segs[j].Lit? && 0 <= k < |subs| ==> Clean(segs[j].text, subs[k].placeholder)
  }

  /** One step of the chain turns the document with `i` holes filled into the one with `i + 1`. */
  lemma {:induction false} FillStep(segs: seq<Segment>, subs: seq<Sub>, i: nat)
    requires StepsIndependent(subs) && HolesFit(segs, subs) && LiteralsClean(segs, subs)
    requires i < |subs|
    ensures ReplaceAll(Render(segs, subs, i), subs[i].placeholder, subs[i].value) == Render(segs, subs, i + 1)
    decreases |segs|
  {
    if segs != [] {
      var p, v := subs[i].placeholder, subs[i].value;
      var rest := segs[1..];
      assert HolesFit(rest, subs) by {
        forall j | 0 <= j < |rest| && rest[j].Hole? ensures rest[j].index < |subs| {
          assert rest[j] == segs[j + 1];
        }
      }
      assert LiteralsClean(rest, subs) by {
        forall j, k | 0 <= j < |rest| && rest[j].Lit? && 0 <= k < |subs|
          ensures Clean(rest[j].text, subs[k].placeholder)
        {
          assert rest[j] == segs[j + 1];
        }
      }
      FillStep(rest, subs, i);
      var tailNow := Render(rest, subs, i);
      match segs[0]
      case Lit(t) =>
        ReplaceAllCleanPrefix(t, tailNow, p, v);
      case Hole(k) =>
        if k == i {
          ReplaceAllHead(tailNow, p, v);
        } else if k < i {
          ReplaceAllCleanPrefix(subs[k].value, tailNow, p, v);
        } else {
          ReplaceAllCleanPrefix(subs[k].placeholder, tailNow, p, v);
        }
    }
  }

  lemma {:induction false} FillFirst(segs: seq<Segment>, subs: seq<Sub>, n: nat)
    requires StepsIndependent(subs) && HolesFit(segs, subs) && LiteralsClean(segs, subs)
    requires n <= |subs|
    ensures ApplyFirst(Render(segs, subs, 0), subs, n) == Render(segs, subs, n)
  {
    if n > 0 {
      FillFirst(segs, subs, n - 1);
      FillStep(segs, subs, n - 1);
    }
  }

  /**
   * Under independence, the replace chain fills the template: every occurrence of every
   * placeholder in the template is replaced by that placeholder's value, and nothing else
   * changes.
   */
  lemma FillsTemplate(segs: seq<Segment>, subs: seq<Sub>)
    requires StepsIndependent(subs) && HolesFit(segs, subs) && LiteralsClean(segs, subs)
    ensures ApplyAll(Render(segs, subs, 0), subs) == Render(segs, subs, |subs|)
  {
    FillFirst(segs, subs, |subs|);
  }
}
