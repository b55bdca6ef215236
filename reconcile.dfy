/**
 * Reconciliation (`_evaluate` in rig.py): every claim of every fetched query is turned into a
 * numbered copy of the fetched record, given a footnote shared by all claims of its query,
 * and its markup span is rewritten in the text.
 */
module Reconcile {
  import opened Wrappers
  import opened Text
  import opened OrderedDict
  import opened Records
  import opened Markup
  import opened Discrepancy

  /** `base.DC`, the tag name of a rewritten span. */
  const DcTag: string := "DC"

  /**
   * The parts of `DataCommonsCall` that the reconciliation calls but that are not modelled:
   * `val_and_unit()`, `footnote()`, and Python's `float()` on a fetched value (`None` where it raises).
   */
  datatype Formatter = Formatter(
    valAndUnit: Record -> string,
    footnote: Record -> string,
    toFloat: string -> Option<real>)

  /** A footnote: its index and its line `"[idx] - <citation>"`. */
  datatype Note = Note(idx: nat, line: string)

  /** One claim to reconcile: its query, the record fetched for the query, and the claimed value. */
  datatype Item = Item(query: string, fetched: Record, claim: string)

  function ClaimItems(query: string, fetched: Record, claims: seq<string>): (items: seq<Item>)
    ensures |items| == |claims|
    ensures forall k :: 0 <= k < |claims| ==> items[k] == Item(query, fetched, claims[k])
  {
    seq(|claims|, k requires 0 <= k < |claims| => Item(query, fetched, claims[k]))
  }

  /** The claims in the order the two loops visit them: queries in `keys` order, then claims in order. */
  function Items(keys: seq<string>, q2resp: map<string, Record>, q2llmval: map<string, seq<string>>): seq<Item>
    requires forall q :: q in keys ==> q in q2resp && q in q2llmval
  {
    if keys == [] then []
    else
      var q := keys[|keys| - 1];
      Items(keys[..|keys| - 1], q2resp, q2llmval) + ClaimItems(q, q2resp[q], q2llmval[q])
  }

  /** `copy.deepcopy(orig_resp)` with `id` and `llm_val` set. */
  function Clone(fetched: Record, id: nat, claim: string): Record
  {
    fetched.(id := id, llmVal := claim)
  }

  /** The footnote index of a query: its own if it has one, otherwise the next free one. */
  function FootnoteIdx(notes: Dict<Note>, query: string): nat
  {
    if query in notes.vals then notes.vals[query].idx else |notes.keys| + 1
  }

  function NoteLine(idx: nat, citation: string): string
  {
    "[" + NatToString(idx) + "] - " + citation
  }

  /**
   * The text that replaces a claim's span, inside its tag: the fetched value and its footnote
   * number first when there is a value, a `*` after the number exactly when the claim is flagged,
   * and the claim last after `|| `; `--- || ---` when there is neither.
   */
  function Rendered(claim: string, dcval: string, idx: nat, flagged: bool): (r: string)
    ensures dcval != "" ==>
      var mark := " [" + NatToString(idx) + "]";
      |dcval| + |mark| <= |r| && r[..|dcval| + |mark|] == dcval + mark
    ensures dcval != "" && claim != "" ==>
      var at := |dcval| + |NatToString(idx)| + 3;
      at < |r| && (r[at] == '*' <==> flagged)
    ensures claim != "" ==> |r| >= |claim| + 3 && r[|r| - |claim| - 3..] == "|| " + claim
    ensures claim == "" && dcval == "" ==> r == "--- || ---"
    ensures claim == "" && dcval != "" ==> r == dcval + " [" + NatToString(idx) + "] ||"
    ensures claim != "" && dcval == "" ==> r == "|| " + claim
    ensures claim != "" && dcval != "" ==>
      r == dcval + " [" + NatToString(idx) + "]" + (if flagged then "*" else "") + " || " + claim
  {
    if claim == "" then
      if dcval != "" then dcval + " [" + NatToString(idx) + "] ||" else "--- || ---"
    else if dcval != "" then
      if flagged then dcval + " [" + NatToString(idx) + "]* || " + claim
      else dcval + " [" + NatToString(idx) + "] || " + claim
    else "|| " + claim
  }

  /** `_rtag`: `[DC#<id>(<txt>)]`, the number right after the prefix and the text last in brackets. */
  function Tag(id: nat, txt: string): (r: string)
    ensures var head := "[" + DcTag + "#";
      |head| + |NatToString(id)| + |txt| + 3 == |r| && r[..|head|] == head
      && r[|head|..|head| + |NatToString(id)|] == NatToString(id)
      && r[|r| - |txt| - 2..] == txt + ")]" && r[|r| - |txt| - 3] == '('
  {
    "[" + DcTag + "#" + NatToString(id) + "(" + txt + ")]"
  }

  /** `dc_calls` after the given claims: the k-th is a copy of its query's record, numbered k + 1. */
  function CallsOf(items: seq<Item>): (calls: seq<Record>)
    ensures |calls| == |items|
    ensures forall k :: 0 <= k < |items| ==> calls[k].id == k + 1 && calls[k].llmVal == items[k].claim
    ensures forall k :: 0 <= k < |items| ==>
      calls[k].(id := items[k].fetched.id, llmVal := items[k].fetched.llmVal) == items[k].fetched
  {
    seq(|items|, k requires 0 <= k < |items| => Clone(items[k].fetched, k + 1, items[k].claim))
  }

  /** The footnote map after one more claim, whose record is numbered `id`. */
  function AddNote(notes: Dict<Note>, id: nat, it: Item, f: Formatter): (r: Dict<Note>)
    requires Valid(notes)
    ensures Valid(r)
  {
    var resp := Clone(it.fetched, id, it.claim);
    if f.valAndUnit(resp) != "" && it.query !in notes.vals then
      var idx := |notes.keys| + 1;
      Put(notes, it.query, Note(idx, NoteLine(idx, f.footnote(resp))))
    else notes
  }

  /** `footnote_map` after the given claims. */
  function NotesOf(items: seq<Item>, f: Formatter): (notes: Dict<Note>)
    ensures Valid(notes)
  {
    if items == [] then Empty()
    else
      var m := |items| - 1;
      AddNote(NotesOf(items[..m], f), m + 1, items[m], f)
  }

  /** The text after one more claim: its first markup span is replaced by its tag. */
  function RewriteOne(text: string, notes: Dict<Note>, id: nat, it: Item, f: Formatter): string
  {
    var resp := Clone(it.fetched, id, it.claim);
    var dcval := f.valAndUnit(resp);
    var flagged := it.claim != "" && dcval != "" && FlagValue(resp.val, it.claim, f.toFloat);
    var rendered := Rendered(it.claim, dcval, FootnoteIdx(notes, it.query), flagged);
    ReplaceFirst(text, Target(it.query, it.claim), Tag(id, rendered))
  }

  /** The text after the given claims. */
  function Rewritten(text: string, items: seq<Item>, f: Formatter): string
  {
    if items == [] then text
    else
      var m := |items| - 1;
      RewriteOne(Rewritten(text, items[..m], f), NotesOf(items[..m], f), m + 1, items[m], f)
  }

  /** What `_evaluate` has built so far: the text, `footnote_map` and `dc_calls`. */
  datatype Progress = Progress(text: string, notes: Dict<Note>, calls: seq<Record>)

  /** The progress after the given claims. */
  function After(text: string, items: seq<Item>, f: Formatter): Progress
  {
    Progress(Rewritten(text, items, f), NotesOf(items, f), CallsOf(items))
  }

  /** One more claim, whose record is numbered after those in `p.calls`. */
  function Next(p: Progress, it: Item, f: Formatter): Progress
    requires Valid(p.notes)
  {
    var id := |p.calls| + 1;
    Progress(RewriteOne(p.text, p.notes, id, it, f), AddNote(p.notes, id, it, f), p.calls + [Clone(it.fetched, id, it.claim)])
  }

  /** The footnote lines in index order. */
  function Footnotes(notes: Dict<Note>): seq<string>
    requires Valid(notes)
  {
    seq(|notes.keys|, k requires 0 <= k < |notes.keys| => notes.vals[notes.keys[k]].line)
  }

  /** One turn of the inner loop of `_evaluate`: the claim `llmVal` of query `q`. */
  method ReconcileClaim(text: string, notes: Dict<Note>, calls: seq<Record>, q: string, origResp: Record, llmVal: string, f: Formatter)
    returns (text': string, notes': Dict<Note>, calls': seq<Record>)
    requires Valid(notes)
    ensures Progress(text', notes', calls') == Next(Progress(text, notes, calls), Item(q, origResp, llmVal), f)
  {
    var resp := origResp.(id := |calls| + 1, llmVal := llmVal);
    var dcval := f.valAndUnit(resp);
    notes' := notes;

    var idx: int := -1;
    if dcval != "" {
      idx := |notes.keys| + 1;
      if q !in notes.vals {
        notes' := Put(notes, q, Note(idx, "[" + NatToString(idx) + "] - " + f.footnote(resp)));
      } else {
        idx := notes.vals[q].idx;
      }
    }

    var orig := Target(q, llmVal);
    var replacement: string;
    if llmVal == "" {
      if dcval != "" {
        replacement := dcval + " [" + NatToString(idx) + "] ||";
      } else {
        replacement := "--- || ---";
      }
      assert replacement == Rendered(llmVal, dcval, FootnoteIdx(notes, q), false);
    } else if dcval != "" {
      if FlagValue(resp.val, llmVal, f.toFloat) {
        replacement := dcval + " [" + NatToString(idx) + "]* || " + llmVal;
      } else {
        replacement := dcval + " [" + NatToString(idx) + "] || " + llmVal;
      }
      assert replacement == Rendered(llmVal, dcval, FootnoteIdx(notes, q), FlagValue(resp.val, llmVal, f.toFloat));
    } else {
      replacement := "|| " + llmVal;
      assert replacement == Rendered(llmVal, dcval, FootnoteIdx(notes, q), false);
    }
    text' := ReplaceFirst(text, orig, Tag(resp.id, replacement));
    calls' := calls + [resp];
  }

  lemma ClaimItemsSnoc(query: string, fetched: Record, claims: seq<string>, j: nat)
    requires j < |claims|
    ensures ClaimItems(query, fetched, claims[..j + 1]) == ClaimItems(query, fetched, claims[..j]) + [Item(query, fetched, claims[j])]
  {
  }

  lemma ItemsSnoc(keys: seq<string>, i: nat, q2resp: map<string, Record>, q2llmval: map<string, seq<string>>)
    requires i < |keys|
    requires forall q :: q in keys ==> q in q2resp && q in q2llmval
    ensures Items(keys[..i + 1], q2resp, q2llmval)
         == Items(keys[..i], q2resp, q2llmval) + ClaimItems(keys[i], q2resp[keys[i]], q2llmval[keys[i]])
  {
    assert keys[..i + 1][..i] == keys[..i];
  }

  lemma CallsSnoc(items: seq<Item>, it: Item)
    ensures CallsOf(items + [it]) == CallsOf(items) + [Clone(it.fetched, |items| + 1, it.claim)]
  {
  }

  lemma FoldsSnoc(text: string, items: seq<Item>, it: Item, f: Formatter)
    ensures After(text, items + [it], f) == Next(After(text, items, f), it, f)
  {
    var all := items + [it];
    assert all[..|items|] == items;
    assert Rewritten(text, all, f) == RewriteOne(Rewritten(text, items, f), NotesOf(items, f), |items| + 1, it, f);
    assert NotesOf(all, f) == AddNote(NotesOf(items, f), |items| + 1, it, f);
    CallsSnoc(items, it);
  }

  /** The inner loop's invariant carried over one more claim. */
  lemma FoldsClaimSnoc(text: string, done: seq<Item>, query: string, fetched: Record, claims: seq<string>, j: nat, f: Formatter)
    requires j < |claims|
    ensures After(text, done + ClaimItems(query, fetched, claims[..j + 1]), f)
         == Next(After(text, done + ClaimItems(query, fetched, claims[..j]), f), Item(query, fetched, claims[j]), f)
  {
    ClaimItemsSnoc(query, fetched, claims, j);
    var it := Item(query, fetched, claims[j]);
    assert done + ClaimItems(query, fetched, claims[..j + 1]) == (done + ClaimItems(query, fetched, claims[..j])) + [it];
    FoldsSnoc(text, done + ClaimItems(query, fetched, claims[..j]), it, f);
  }

  /** `_evaluate(text, q2llmval, q2resp)`. */
  method Evaluate(text: string, q2llmval: Dict<seq<string>>, q2resp: Dict<Record>, f: Formatter)
    returns (out: string, footnotes: seq<string>, dcCalls: seq<Record>)
    requires Valid(q2resp)
    requires forall q :: q in q2resp.vals ==> q in q2llmval.vals
    ensures var items := Items(q2resp.keys, q2resp.vals, q2llmval.vals);
      out == Rewritten(text, items, f) && footnotes == Footnotes(NotesOf(items, f)) && dcCalls == CallsOf(items)
  {
    var keys := q2resp.keys;
    dcCalls := [];
    var notes: Dict<Note> := Empty();
    out := text;
    for i := 0 to |keys|
      invariant Progress(out, notes, dcCalls) == After(text, Items(keys[..i], q2resp.vals, q2llmval.vals), f)
    {
      var q := keys[i];
      var origResp := q2resp.vals[q];
      var llmVals := q2llmval.vals[q];
      ghost var done := Items(keys[..i], q2resp.vals, q2llmval.vals);
      assert done + ClaimItems(q, origResp, llmVals[..0]) == done;
      for j := 0 to |llmVals|
        invariant Progress(out, notes, dcCalls) == After(text, done + ClaimItems(q, origResp, llmVals[..j]), f)
      {
        out, notes, dcCalls := ReconcileClaim(out, notes, dcCalls, q, origResp, llmVals[j], f);
        FoldsClaimSnoc(text, done, q, origResp, llmVals, j, f);
      }
      assert llmVals[..|llmVals|] == llmVals;
      ItemsSnoc(keys, i, q2resp.vals, q2llmval.vals);
    }
    assert keys[..|keys|] == keys;
    footnotes := Footnotes(notes);
  }

  /** There is one item, hence one record in `dc_calls`, per claim found in the text. */
  lemma {:induction false} ItemsCount(keys: seq<string>, q2resp: map<string, Record>, q2llmval: map<string, seq<string>>)
    requires forall q :: q in keys ==> q in q2resp && q in q2llmval
    ensures |Items(keys, q2resp, q2llmval)| == ClaimCount(keys, q2llmval)
  {
    if keys != [] {
      ItemsCount(keys[..|keys| - 1], q2resp, q2llmval);
    }
  }

  /** How one claim changes the footnotes: at most its own query is added, at the next index. */
  lemma AddNoteFacts(notes: Dict<Note>, id: nat, it: Item, f: Formatter)
    requires Valid(notes)
    ensures var r := AddNote(notes, id, it, f);
      (it.query in r.vals <==> it.query in notes.vals || f.valAndUnit(Clone(it.fetched, id, it.claim)) != "") &&
      (it.query in r.vals ==> r.vals[it.query].idx == FootnoteIdx(notes, it.query)) &&
      (forall q :: q != it.query ==> (q in r.vals <==> q in notes.vals)) &&
      (forall q :: q in notes.vals ==> q in r.vals && r.vals[q] == notes.vals[q]) &&
      (r.keys == notes.keys || (it.query !in notes.vals && r.keys == notes.keys + [it.query]))
  {
  }

  /** The k-th footnote in the list has index k + 1. */
  ghost predicate Numbered(notes: Dict<Note>)
    requires Valid(notes)
  {
    forall k :: 0 <= k < |notes.keys| ==> notes.vals[notes.keys[k]].idx == k + 1
  }

  /** Footnotes are numbered 1, 2, 3, ... in the order of the list: sorting them by index keeps that order. */
  lemma {:induction false} NotesNumbered(items: seq<Item>, f: Formatter)
    ensures Numbered(NotesOf(items, f))
  {
    if items != [] {
      var m := |items| - 1;
      var n := NotesOf(items[..m], f);
      NotesNumbered(items[..m], f);
      AddNoteFacts(n, m + 1, items[m], f);
      var r := NotesOf(items, f);
      assert r == AddNote(n, m + 1, items[m], f);
      forall k | 0 <= k < |r.keys|
        ensures r.vals[r.keys[k]].idx == k + 1
      {
        if k < |n.keys| {
          assert r.keys[k] == n.keys[k];
          assert n.keys[k] in n.vals;
        } else {
          assert r.keys == n.keys + [items[m].query] && items[m].query !in n.vals;
          assert r.keys[k] == items[m].query;
          assert items[m].query in r.vals;
        }
      }
    }
  }

  /** The value shown for the k-th claim, whose record is numbered k + 1. */
  function ShownValue(items: seq<Item>, k: nat, f: Formatter): string
    requires k < |items|
  {
    f.valAndUnit(Clone(items[k].fetched, k + 1, items[k].claim))
  }

  /** A query has a footnote exactly when at least one of its claims was shown with a fetched value. */
  lemma {:induction false} NoteWhenShown(items: seq<Item>, f: Formatter, q: string)
    ensures q in NotesOf(items, f).vals <==>
      exists k :: 0 <= k < |items| && items[k].query == q && ShownValue(items, k, f) != ""
  {
    if items != [] {
      var m := |items| - 1;
      var prefix := items[..m];
      var n := NotesOf(prefix, f);
      NoteWhenShown(prefix, f, q);
      NoteOfQuery(n, m + 1, items[m], f, q);
      assert NotesOf(items, f) == AddNote(n, m + 1, items[m], f);
      ShownSplit(items, f, q);
    }
  }

  /** One more claim gives query `q` a footnote exactly when it had one or the claim is of `q` and shown. */
  lemma NoteOfQuery(notes: Dict<Note>, id: nat, it: Item, f: Formatter, q: string)
    requires Valid(notes)
    ensures q in AddNote(notes, id, it, f).vals <==>
      q in notes.vals || (it.query == q && f.valAndUnit(Clone(it.fetched, id, it.claim)) != "")
  {
    AddNoteFacts(notes, id, it, f);
  }

  /** A claim of `q` shown among the claims is one shown among all but the last, or the last. */
  lemma ShownSplit(items: seq<Item>, f: Formatter, q: string)
    requires items != []
    ensures var m := |items| - 1;
      (exists k :: 0 <= k < |items| && items[k].query == q && ShownValue(items, k, f) != "") <==>
      (exists k :: 0 <= k < m && items[..m][k].query == q && ShownValue(items[..m], k, f) != "")
      || (items[m].query == q && f.valAndUnit(Clone(items[m].fetched, m + 1, items[m].claim)) != "")
  {
    var m := |items| - 1;
    var prefix := items[..m];
    if exists k :: 0 <= k < |items| && items[k].query == q && ShownValue(items, k, f) != "" {
      var k :| 0 <= k < |items| && items[k].query == q && ShownValue(items, k, f) != "";
      if k < m {
        assert prefix[k] == items[k];
        assert ShownValue(prefix, k, f) == ShownValue(items, k, f);
      }
    }
    if exists k :: 0 <= k < m && prefix[k].query == q && ShownValue(prefix, k, f) != "" {
      var k :| 0 <= k < m && prefix[k].query == q && ShownValue(prefix, k, f) != "";
      assert items[k] == prefix[k];
      assert ShownValue(items, k, f) == ShownValue(prefix, k, f);
    }
  }

  /**
   * All claims of one query share one footnote: the index rendered for claim k (the one its
   * query has, or would get, when the claim is reached) is the index of the final footnote.
   */
  lemma {:induction false} FootnoteShared(items: seq<Item>, f: Formatter, k: nat)
    requires k < |items|
    requires ShownValue(items, k, f) != ""
    ensures var n := NotesOf(items, f);
      items[k].query in n.vals &&
      n.vals[items[k].query].idx == FootnoteIdx(NotesOf(items[..k], f), items[k].query)
  {
    var m := |items| - 1;
    var prefix := items[..m];
    AddNoteFacts(NotesOf(prefix, f), m + 1, items[m], f);
    assert NotesOf(items, f) == AddNote(NotesOf(prefix, f), m + 1, items[m], f);
    if k < m {
      assert prefix[k] == items[k];
      assert prefix[..k] == items[..k];
      FootnoteShared(prefix, f, k);
    } else {
      assert prefix == items[..k];
    }
  }

  /** Reconciling leaves the text alone when none of the claims' markup spans occurs in it. */
  lemma {:induction false} TextUntouched(text: string, items: seq<Item>, f: Formatter)
    requires forall k, j :: 0 <= k < |items| ==> !OccursAt(text, Target(items[k].query, items[k].claim), j)
    ensures Rewritten(text, items, f) == text
  {
    if items != [] {
      var m := |items| - 1;
      TextUntouched(text, items[..m], f);
      assert forall j :: !OccursAt(text, Target(items[m].query, items[m].claim), j);
      RewriteOneUntouched(text, NotesOf(items[..m], f), m + 1, items[m], f);
    }
  }

  /** A claim whose markup span does not occur leaves the text alone. */
  lemma RewriteOneUntouched(text: string, notes: Dict<Note>, id: nat, it: Item, f: Formatter)
    requires forall j :: !OccursAt(text, Target(it.query, it.claim), j)
    ensures RewriteOne(text, notes, id, it, f) == text
  {
  }
}
