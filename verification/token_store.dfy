/**
 * The credential file: a newline-joined list of opaque tokens. Loading splits
 * on "\n" and drops the lines whose `trim()` is empty; saving joins with "\n".
 * The file is `None` when it does not exist.
 */
module TokenStore {
  import opened Wrappers
  import opened Protocol
  import Text
  import Seqs

  /** A line `loadTokens` keeps: not all white space (see `IsEntryIffTrimmed`). */
  predicate IsEntry(line: string) {
    !Text.IsBlank(line)
  }

  /** A line is kept exactly when `line.trim() !== ""`. */
  lemma IsEntryIffTrimmed(line: string)
    ensures IsEntry(line) <==> Text.Trim(line) != []
  {
    Text.TrimEmptyIffBlank(line);
  }

  /** A token that a save followed by a load gives back: non-blank and without a newline. */
  predicate Storable(t: Token) {
    IsEntry(t) && '\n' !in t
  }

  /** `t => t.trim() !== ""`, the test `loadTokens` filters with. */
  function KeepLine(): string -> bool {
    line => IsEntry(line)
  }

  predicate NoDuplicates(ts: seq<Token>) {
    forall i, j :: 0 <= i < j < |ts| ==> ts[i] != ts[j]
  }

  function Lines(contents: string): seq<string> {
    Text.Split(contents, '\n')
  }

  /** `loadTokens`: no tokens without a file; otherwise its non-blank lines. */
  function Load(file: Option<string>): (ts: seq<Token>)
    ensures file.None? ==> ts == []
    ensures forall i :: 0 <= i < |ts| ==> Storable(ts[i])
  {
    if file.None? then []
    else
      var lines := Lines(file.value);
      Seqs.SubseqMembers(Seqs.Filter(KeepLine(), lines), lines);
      Seqs.Filter(KeepLine(), lines)
  }

  /**
   * The loaded tokens are the file's lines whose `trim()` is not empty, each
   * as often as it occurs, in file order and untrimmed.
   */
  lemma LoadKeepsEntryLines(contents: string)
    ensures var ts := Load(Some(contents));
      && Seqs.IsSubseq(ts, Lines(contents))
      && forall line :: multiset(ts)[line] == if IsEntry(line) then multiset(Lines(contents))[line] else 0
  {
    Seqs.FilterCounts(KeepLine(), Lines(contents));
  }

  /** `saveTokens`: the text written to the file. */
  function Save(ts: seq<Token>): string {
    Text.Join(ts, '\n')
  }

  /** Saving storable tokens and loading them back gives the same list. */
  lemma LoadAfterSave(ts: seq<Token>)
    requires forall i :: 0 <= i < |ts| ==> Storable(ts[i])
    ensures Load(Some(Save(ts))) == ts
  {
    if |ts| == 0 {
      assert Lines(Save(ts)) == [[]];
      assert !IsEntry([]);
    } else {
      Text.SplitJoin(ts, '\n');
      Seqs.FilterKeepsAll(KeepLine(), ts);
    }
  }

  /** A save after a load normalises the file without changing what it holds. */
  lemma SaveKeepsLoaded(file: Option<string>)
    ensures Load(Some(Save(Load(file)))) == Load(file)
  {
    LoadAfterSave(Load(file));
  }

  /** `addToken`'s edit of the list: append the token unless it is already there. */
  function WithToken(ts: seq<Token>, t: Token): (r: seq<Token>)
    ensures t in r
    ensures |ts| <= |r| <= |ts| + 1 && r[..|ts|] == ts
    ensures r == ts <==> t in ts
    ensures NoDuplicates(ts) ==> NoDuplicates(r)
  {
    if t in ts then ts else ts + [t]
  }

  function IsNot(t: Token): Token -> bool {
    u => u != t
  }

  /** `removeToken`'s edit of the list: every occurrence of the token goes, the rest keep their order. */
  function WithoutToken(ts: seq<Token>, t: Token): (r: seq<Token>)
    ensures t !in r
    ensures Seqs.IsSubseq(r, ts)
  {
    Seqs.Filter(IsNot(t), ts)
  }

  /** Removal drops exactly the chosen token: every other token keeps all its occurrences. */
  lemma WithoutTokenCounts(ts: seq<Token>, t: Token)
    ensures var r := WithoutToken(ts, t);
      && multiset(r)[t] == 0
      && forall u :: u != t ==> multiset(r)[u] == multiset(ts)[u]
  {
    Seqs.FilterCounts(IsNot(t), ts);
  }
}
