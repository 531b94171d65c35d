/** The recipient list of the compose form: the parser for an uploaded file
    of addresses, the three updates of the list (merge an upload, add a
    typed address, remove one), and the required-field check on submit.
    The form's list is React state; each update is a function of the
    previous list. */
module Compose {
  import opened Wrappers
  import opened Text
  import opened Lists
  import Scheduler

  const SUBMIT_ERROR: string := "Please fill all required fields and add at least one recipient."

  // ---------------------------------------------------------------- splitting

  /** The character class of `/[\r\n,;]+/`. */
  predicate IsSeparator(c: char) {
    c == '\r' || c == '\n' || c == ',' || c == ';'
  }

  predicate SeparatorFree(s: string) {
    forall i :: 0 <= i < |s| ==> !IsSeparator(s[i])
  }

  /** The index of the first separator, or `|s|` when there is none. */
  function FirstSeparator(s: string): (i: nat)
    ensures i <= |s|
    ensures forall k :: 0 <= k < i ==> !IsSeparator(s[k])
    ensures i < |s| ==> IsSeparator(s[i])
  {
    if s == [] || IsSeparator(s[0]) then 0 else 1 + FirstSeparator(s[1..])
  }

  /** The length of the run of separators that `s` begins with. */
  function RunLength(s: string): (n: nat)
    ensures n <= |s|
    ensures forall k :: 0 <= k < n ==> IsSeparator(s[k])
    ensures n < |s| ==> !IsSeparator(s[n])
    ensures s != [] && IsSeparator(s[0]) ==> n >= 1
  {
    if s != [] && IsSeparator(s[0]) then 1 + RunLength(s[1..]) else 0
  }

  /** A non-empty run made only of separators. */
  predicate IsRun(sep: string) {
    sep != [] && forall i :: 0 <= i < |sep| ==> IsSeparator(sep[i])
  }

  /** The pieces written out with `seps[k]` between pieces `k` and `k + 1`. */
  function Interleave(pieces: seq<string>, seps: seq<string>): string
    requires |pieces| == |seps| + 1
    decreases |seps|
  {
    if |seps| == 0 then pieces[0] else pieces[0] + seps[0] + Interleave(pieces[1..], seps[1..])
  }

  /** What a split by maximal separator runs looks like: separator-free
      pieces with a run between neighbours, and only the first and the last
      piece possibly empty. */
  predicate SplitShape(pieces: seq<string>, seps: seq<string>) {
    && |pieces| == |seps| + 1
    && (forall k :: 0 <= k < |pieces| ==> SeparatorFree(pieces[k]))
    && (forall k :: 0 <= k < |seps| ==> IsRun(seps[k]))
    && (forall k :: 0 < k < |pieces| - 1 ==> pieces[k] != [])
  }

  /** The maximal separator runs of `s`, in order. */
  function SeparatorRuns(s: string): seq<string>
    decreases |s|
  {
    var i := FirstSeparator(s);
    if i == |s| then []
    else
      var n := RunLength(s[i..]);
      [s[i..i + n]] + SeparatorRuns(s[i + n..])
  }

  /** `content.split(/[\r\n,;]+/)`: the text between maximal runs of
      separators, with an empty first or last piece when the text begins or
      ends with a separator. Put back together with its runs, it is `s`. */
  function Split(s: string): (pieces: seq<string>)
    ensures |pieces| >= 1
    ensures SplitShape(pieces, SeparatorRuns(s))
    ensures Interleave(pieces, SeparatorRuns(s)) == s
    decreases |s|
  {
    var i := FirstSeparator(s);
    if i == |s| then [s]
    else
      var n := RunLength(s[i..]);
      CutAtRun(s, i, n);
      var rest := Split(s[i + n..]);
      SplitCons(s, s[..i], s[i..i + n], s[i + n..], rest, SeparatorRuns(s[i + n..]));
      [s[..i]] + rest
  }

  /** The first maximal run of separators cuts `s` into a separator-free
      head, the run, and a tail that does not start with a separator. */
  lemma CutAtRun(s: string, i: nat, n: nat)
    requires i == FirstSeparator(s) < |s| && n == RunLength(s[i..])
    ensures i + n <= |s| && s == s[..i] + s[i..i + n] + s[i + n..]
    ensures SeparatorFree(s[..i]) && IsRun(s[i..i + n])
    ensures s[i + n..] == [] || !IsSeparator(s[i + n..][0])
  {
    HeadFree(s, i);
    RunPrefix(s[i..], n);
    SlicesOfSuffix(s, i, n);
    Concat3(s, i, i + n);
  }

  lemma SlicesOfSuffix(s: string, i: nat, n: nat)
    requires i + n <= |s|
    ensures s[i..i + n] == s[i..][..n] && s[i + n..] == s[i..][n..]
  {
  }

  lemma HeadFree(s: string, i: nat)
    requires i <= |s| && forall k :: 0 <= k < i ==> !IsSeparator(s[k])
    ensures SeparatorFree(s[..i])
  {
    forall k | 0 <= k < i ensures !IsSeparator(s[..i][k]) {
      assert s[..i][k] == s[k];
    }
  }

  lemma RunPrefix(u: string, n: nat)
    requires u != [] && IsSeparator(u[0]) && n == RunLength(u)
    ensures IsRun(u[..n]) && (u[n..] == [] || !IsSeparator(u[n..][0]))
  {
    forall k | 0 <= k < n ensures IsSeparator(u[..n][k]) {
      assert u[..n][k] == u[k];
    }
    if n < |u| {
      assert u[n..][0] == u[n];
    }
  }

  lemma Concat3(s: string, i: nat, j: nat)
    requires i <= j <= |s|
    ensures s == s[..i] + s[i..j] + s[j..]
  {
    assert s[..i] + s[i..j] == s[..j];
    assert s == s[..j] + s[j..];
  }

  /** Putting a separator-free head and a run in front of a split shape
      whose text does not start with a separator gives a split shape. */
  lemma SplitCons(s: string, p: string, sep: string, after: string, rest: seq<string>, tail: seq<string>)
    requires s == p + sep + after && SeparatorFree(p) && IsRun(sep)
    requires after == [] || !IsSeparator(after[0])
    requires SplitShape(rest, tail) && Interleave(rest, tail) == after
    ensures SplitShape([p] + rest, [sep] + tail)
    ensures Interleave([p] + rest, [sep] + tail) == s
  {
    var pieces, seps := [p] + rest, [sep] + tail;
    assert pieces[1..] == rest && seps[1..] == tail;
    forall k | 0 < k < |pieces| ensures pieces[k] == rest[k - 1] {
    }
    forall k | 0 < k < |seps| ensures seps[k] == tail[k - 1] {
    }
  }

  /** `Split` is the only way of cutting `s` at maximal separator runs:
      any such decomposition of a text is its split. */
  lemma {:induction false} SplitOfInterleave(pieces: seq<string>, seps: seq<string>)
    requires SplitShape(pieces, seps)
    ensures Split(Interleave(pieces, seps)) == pieces
    ensures SeparatorRuns(Interleave(pieces, seps)) == seps
    decreases |seps|
  {
    var s := Interleave(pieces, seps);
    if |seps| == 0 {
      FirstSeparatorAfterFree(pieces[0], "");
      assert pieces[0] + "" == pieces[0];
    } else {
      var p, sep := pieces[0], seps[0];
      var rest := Interleave(pieces[1..], seps[1..]);
      TailShape(pieces, seps);
      InterleaveStart(pieces[1..], seps[1..]);
      CutOfInterleave(p, sep, rest);
      assert s == p + sep + rest;
      SplitUnfold(s, |p|, |sep|);
      SplitOfInterleave(pieces[1..], seps[1..]);
      calc {
        Split(s);
        [p] + Split(rest);
        [p] + pieces[1..];
        pieces;
      }
      calc {
        SeparatorRuns(s);
        [sep] + SeparatorRuns(rest);
        [sep] + seps[1..];
        seps;
      }
    }
  }

  /** One unfolding of `Split` and of `SeparatorRuns` at the first run. */
  lemma SplitUnfold(s: string, i: nat, n: nat)
    requires i == FirstSeparator(s) < |s| && n == RunLength(s[i..])
    ensures Split(s) == [s[..i]] + Split(s[i + n..])
    ensures SeparatorRuns(s) == [s[i..i + n]] + SeparatorRuns(s[i + n..])
  {
    RunsUnfold(s, i, n);
  }

  lemma RunsUnfold(s: string, i: nat, n: nat)
    requires i == FirstSeparator(s) < |s| && n == RunLength(s[i..])
    ensures SeparatorRuns(s) == [s[i..i + n]] + SeparatorRuns(s[i + n..])
  {
  }

  lemma TailShape(pieces: seq<string>, seps: seq<string>)
    requires SplitShape(pieces, seps) && |seps| > 0
    ensures SplitShape(pieces[1..], seps[1..])
    ensures |pieces| > 2 ==> pieces[1..][0] != []
  {
    forall k | 0 < k < |pieces| - 2 ensures pieces[1..][k] != [] {
      assert pieces[1..][k] == pieces[k + 1];
    }
  }

  /** Where `p + sep + rest` is cut when `p` is separator-free, `sep` a run
      and `rest` does not start with a separator. */
  lemma CutOfInterleave(p: string, sep: string, rest: string)
    requires SeparatorFree(p) && IsRun(sep) && (rest == [] || !IsSeparator(rest[0]))
    ensures var s := p + sep + rest;
      && FirstSeparator(s) == |p| < |s| && RunLength(s[|p|..]) == |sep|
      && s[..|p|] == p && s[|p|..|p| + |sep|] == sep && s[|p| + |sep|..] == rest
  {
    var s := p + sep + rest;
    assert s == p + (sep + rest);
    FirstSeparatorAfterFree(p, sep + rest);
    assert s[|p|..] == sep + rest;
    RunLengthOfRun(sep, rest);
  }

  /** Written out, a split shape starts with a character of its first piece
      or, when that is empty, with its first run. */
  lemma InterleaveStart(pieces: seq<string>, seps: seq<string>)
    requires SplitShape(pieces, seps) && (|pieces| > 1 ==> pieces[0] != [])
    ensures var s := Interleave(pieces, seps); s == [] || !IsSeparator(s[0])
  {
    if |seps| > 0 {
      assert Interleave(pieces, seps)[0] == pieces[0][0];
    }
  }

  lemma {:induction false} RunLengthOfRun(sep: string, rest: string)
    requires IsRun(sep) && (rest == [] || !IsSeparator(rest[0]))
    ensures RunLength(sep + rest) == |sep|
    decreases |sep|
  {
    assert (sep + rest)[0] == sep[0];
    if |sep| > 1 {
      assert (sep + rest)[1..] == sep[1..] + rest;
      RunLengthOfRun(sep[1..], rest);
    } else {
      assert (sep + rest)[1..] == rest;
    }
  }

  /** Pieces written out with one comma between neighbours. */
  function JoinWithCommas(pieces: seq<string>): string
    requires |pieces| >= 1
  {
    if |pieces| == 1 then pieces[0] else pieces[0] + "," + JoinWithCommas(pieces[1..])
  }

  /** Splitting undoes joining for non-empty, separator-free pieces. */
  lemma {:induction false} SplitJoinRoundTrip(pieces: seq<string>)
    requires |pieces| >= 1
    requires forall k :: 0 <= k < |pieces| ==> pieces[k] != [] && SeparatorFree(pieces[k])
    ensures Split(JoinWithCommas(pieces)) == pieces
    decreases |pieces|
  {
    if |pieces| > 1 {
      var p, rest := pieces[0], JoinWithCommas(pieces[1..]);
      var s := p + "," + rest;
      assert rest[0] == pieces[1][0] by {
        JoinStartsWithFirst(pieces[1..]);
      }
      assert FirstSeparator(s) == |p| by {
        assert s == p + ("," + rest);
        FirstSeparatorAfterFree(p, "," + rest);
      }
      assert s[|p|..] == "," + rest;
      assert RunLength("," + rest) == 1 by {
        assert ("," + rest)[1..] == rest;
      }
      assert s[|p| + 1..] == rest;
      assert s[..|p|] == p;
      SplitJoinRoundTrip(pieces[1..]);
    } else {
      FirstSeparatorAfterFree(pieces[0], "");
      assert pieces[0] + "" == pieces[0];
    }
  }

  lemma {:induction false} JoinStartsWithFirst(pieces: seq<string>)
    requires |pieces| >= 1 && pieces[0] != []
    ensures JoinWithCommas(pieces) != [] && JoinWithCommas(pieces)[0] == pieces[0][0]
  {
  }

  lemma {:induction false} FirstSeparatorAfterFree(p: string, rest: string)
    requires SeparatorFree(p) && (rest == [] || IsSeparator(rest[0]))
    ensures FirstSeparator(p + rest) == |p|
    decreases |p|
  {
    if p != [] {
      assert (p + rest)[1..] == p[1..] + rest;
      FirstSeparatorAfterFree(p[1..], rest);
    } else {
      assert p + rest == rest;
    }
  }

  // ---------------------------------------------------------------- the address pattern

  /** A character `[^\s@]` accepts. */
  predicate Plain(c: char) {
    !IsWhitespace(c) && c != '@'
  }

  predicate AllPlain(s: string) {
    forall i :: 0 <= i < |s| ==> Plain(s[i])
  }

  /** `/^[^\s@]+@[^\s@]+\.[^\s@]+$/` read as a pattern: a non-empty plain
      local part, an '@', and a domain made of two non-empty plain parts
      around a '.'. */
  predicate MatchesEmailPattern(s: string) {
    exists i: nat, k: nat | i < k < |s| :: MatchesAt(s, i, k)
  }

  /** The pattern matches `s` with its '@' at `i` and the chosen '.' at `k`. */
  predicate MatchesAt(s: string, i: nat, k: nat) {
    && 0 < i && i + 1 < k && k + 1 < |s| && s[i] == '@' && s[k] == '.'
    && AllPlain(s[..i]) && AllPlain(s[i + 1..k]) && AllPlain(s[k + 1..])
  }

  /** The length of the longest plain prefix of `s`. */
  function PlainPrefix(s: string): (n: nat)
    ensures n <= |s| && AllPlain(s[..n])
    ensures n < |s| ==> !Plain(s[n])
  {
    if s != [] && Plain(s[0]) then
      var n := 1 + PlainPrefix(s[1..]);
      assert forall j :: 1 <= j < n ==> s[..n][j] == s[1..][..n - 1][j - 1];
      n
    else 0
  }

  /** The test in one scan: plain text up to the first '@', then a plain
      domain with a '.' strictly inside it. */
  predicate IsEmailShaped(s: string) {
    var i := PlainPrefix(s);
    && 0 < i < |s| && s[i] == '@'
    && var d := s[i + 1..];
       |d| >= 3 && AllPlain(d) && '.' in d[1..|d| - 1]
  }

  lemma ShapedMatches(s: string)
    requires IsEmailShaped(s)
    ensures MatchesEmailPattern(s)
  {
    var i := PlainPrefix(s);
    var d := s[i + 1..];
    var m :| 0 <= m < |d[1..|d| - 1]| && d[1..|d| - 1][m] == '.';
    var k: nat := i + 2 + m;
    assert s[k] == '.';
    assert s[i + 1..k] == d[..m + 1];
    assert s[k + 1..] == d[m + 2..];
    assert AllPlain(s[i + 1..k]);
    assert AllPlain(s[k + 1..]);
    assert MatchesAt(s, i, k);
  }

  lemma MatchesShaped(s: string, i: nat, k: nat)
    requires MatchesAt(s, i, k)
    ensures IsEmailShaped(s)
  {
    assert PlainPrefix(s) == i;
    var d := s[i + 1..];
    assert d[1..|d| - 1][k - i - 2] == '.';
    forall j | 0 <= j < |d| ensures Plain(d[j]) {
      if j < k - i - 1 {
        assert d[j] == s[i + 1..k][j];
      } else if j > k - i - 1 {
        assert d[j] == s[k + 1..][j - (k - i)];
      }
    }
  }

  /** The one-scan test accepts exactly what the pattern matches. */
  lemma EmailShapedMatches(s: string)
    ensures IsEmailShaped(s) <==> MatchesEmailPattern(s)
  {
    if IsEmailShaped(s) {
      ShapedMatches(s);
    }
    if MatchesEmailPattern(s) {
      var i: nat, k: nat :| MatchesAt(s, i, k);
      MatchesShaped(s, i, k);
    }
  }

  lemma LowerSliceKeepsPlain(s: string, a: nat, b: nat)
    requires a <= b <= |s| && AllPlain(s[a..b])
    ensures AllPlain(ToLower(s)[a..b])
  {
    var t := ToLower(s);
    forall j | 0 <= j < b - a ensures Plain(t[a..b][j]) {
      assert s[a..b][j] == s[a + j];
      LowerCharKeepsClass(s[a + j]);
    }
  }

  /** Lowercasing keeps an address shaped like an address. */
  lemma LowerKeepsShape(s: string)
    requires IsEmailShaped(s)
    ensures IsEmailShaped(ToLower(s))
  {
    ShapedMatches(s);
    var i: nat, k: nat :| MatchesAt(s, i, k);
    LowerMatchesAt(s, i, k);
    MatchesShaped(ToLower(s), i, k);
  }

  lemma LowerMatchesAt(s: string, i: nat, k: nat)
    requires MatchesAt(s, i, k)
    ensures MatchesAt(ToLower(s), i, k)
  {
    var t := ToLower(s);
    LowerCharKeepsClass('@');
    LowerCharKeepsClass('.');
    assert s[..i] == s[0..i] && t[..i] == t[0..i];
    assert s[k + 1..] == s[k + 1..|s|] && t[k + 1..] == t[k + 1..|t|];
    LowerSliceKeepsPlain(s, 0, i);
    LowerSliceKeepsPlain(s, i + 1, k);
    LowerSliceKeepsPlain(s, k + 1, |s|);
  }

  // ---------------------------------------------------------------- parsing an upload

  /** What one piece contributes: its trimmed, lowercased text when the
      trimmed text is shaped like an address. */
  predicate Yields(line: string, e: string) {
    IsEmailShaped(Trim(line)) && e == ToLower(Trim(line))
  }

  /** What the loop pushes for one piece: at most one address, which
      matches the address pattern and is lower case. */
  function Accept(line: string): (r: seq<string>)
    ensures |r| <= 1
    ensures forall e :: e in r ==> MatchesEmailPattern(e) && IsLower(e)
    ensures forall e :: e in r <==> Yields(line, e)
  {
    var trimmed := Trim(line);
    if IsEmailShaped(trimmed) then
      LowerKeepsShape(trimmed);
      ShapedMatches(ToLower(trimmed));
      ToLowerIsLower(trimmed);
      [ToLower(trimmed)]
    else []
  }

  /** The addresses the loop pushes, in order, duplicates kept. */
  function Accepted(lines: seq<string>): seq<string>
    decreases |lines|
  {
    if lines == [] then [] else Accepted(lines[..|lines| - 1]) + Accept(lines[|lines| - 1])
  }

  /** `parseEmailsFromFile`: the accepted addresses without repeats. */
  function ParsedEmails(content: string): seq<string> {
    Dedup(Accepted(Split(content)))
  }

  lemma AcceptedSnoc(lines: seq<string>, i: nat)
    requires i < |lines|
    ensures Accepted(lines[..i + 1]) == Accepted(lines[..i]) + Accept(lines[i])
  {
    assert lines[..i + 1][..i] == lines[..i];
  }

  method ParseEmailsFromFile(content: string) returns (emails: seq<string>)
    ensures emails == ParsedEmails(content)
  {
    var lines := Split(content);
    var pushed: seq<string> := [];
    for i := 0 to |lines|
      invariant pushed == Accepted(lines[..i])
    {
      AcceptedSnoc(lines, i);
      var trimmed := Trim(lines[i]);
      if IsEmailShaped(trimmed) {
        pushed := pushed + [ToLower(trimmed)];
      }
    }
    assert lines[..|lines|] == lines;
    emails := Dedup(pushed);
  }

  /** Some piece among `lines` yields `e`. */
  predicate YieldedBy(lines: seq<string>, e: string)
    decreases |lines|
  {
    lines != [] && (YieldedBy(lines[..|lines| - 1], e) || Yields(lines[|lines| - 1], e))
  }

  lemma {:induction false} AcceptedMembers(lines: seq<string>, e: string)
    ensures e in Accepted(lines) <==> YieldedBy(lines, e)
    decreases |lines|
  {
    if lines != [] {
      AcceptedMembers(lines[..|lines| - 1], e);
    }
  }

  /** Everything the loop pushes is lowercase and shaped like an address. */
  lemma {:induction false} AcceptedEntries(lines: seq<string>)
    ensures forall i :: 0 <= i < |Accepted(lines)| ==>
      IsLower(Accepted(lines)[i]) && IsEmailShaped(Accepted(lines)[i]) && Entry(Accepted(lines)[i])
    decreases |lines|
  {
    if lines != [] {
      var init, last := lines[..|lines| - 1], Trim(lines[|lines| - 1]);
      AcceptedEntries(init);
      if IsEmailShaped(last) {
        ShapedLowerIsEntry(last);
        ToLowerIsLower(last);
      }
      var a := Accepted(lines);
      assert a == Accepted(init) + Accept(lines[|lines| - 1]);
      forall i | 0 <= i < |a| ensures IsLower(a[i]) && IsEmailShaped(a[i]) && Entry(a[i]) {
        if i < |Accepted(init)| {
          assert a[i] == Accepted(init)[i];
        }
      }
    }
  }

  /** An entry of the form's list: what the scheduler treats as already
      normalised, with an '@' in it. */
  predicate Entry(e: string) {
    Scheduler.NormalForm(e) && '@' in e
  }

  predicate WellFormedList(rs: seq<string>) {
    NoDuplicates(rs) && forall i :: 0 <= i < |rs| ==> Entry(rs[i])
  }

  lemma ShapedLowerIsEntry(t: string)
    requires IsEmailShaped(t)
    ensures Entry(ToLower(t)) && IsEmailShaped(ToLower(t))
  {
    LowerKeepsShape(t);
    ToLowerIsLower(t);
    var e := ToLower(t);
    var i := PlainPrefix(e);
    assert e[i] == '@';
    assert e[..i][0] == e[0];
    var d := e[i + 1..];
    assert d[|d| - 1] == e[|e| - 1];
  }

  /** The parsed list has no repeats; an address is in it exactly when some
      piece of the upload, trimmed, is shaped like an address and
      lowercases to it; every entry is lowercase, shaped like an address and
      an entry of the form's list. */
  lemma ParsedEmailsContents(content: string)
    ensures var r := ParsedEmails(content);
      && NoDuplicates(r)
      && (forall e :: e in r <==> YieldedBy(Split(content), e))
      && (forall i :: 0 <= i < |r| ==> IsLower(r[i]) && IsEmailShaped(r[i]) && Entry(r[i]))
  {
    var lines := Split(content);
    var r := ParsedEmails(content);
    forall e ensures e in r <==> YieldedBy(lines, e) {
      AcceptedMembers(lines, e);
    }
    AcceptedEntries(lines);
    forall i | 0 <= i < |r| ensures IsLower(r[i]) && IsEmailShaped(r[i]) && Entry(r[i]) {
      var k := FirstIndex(Accepted(lines), r[i]);
    }
  }

  /** The parsed list keeps the order in which addresses first appear. */
  lemma ParsedFirstSeenOrder(content: string, i: nat, j: nat)
    requires i < j < |ParsedEmails(content)|
    ensures var pushed, r := Accepted(Split(content)), ParsedEmails(content);
      FirstIndex(pushed, r[i]) < FirstIndex(pushed, r[j])
  {
    DedupFirstSeenOrder(Accepted(Split(content)), i, j);
  }

  // ---------------------------------------------------------------- the list updates

  /** `setRecipients((prev) => [...new Set([...prev, ...emails])])`. */
  function MergeParsed(prev: seq<string>, emails: seq<string>): seq<string> {
    Dedup(prev + emails)
  }

  /** A merge keeps the old list in front and appends the new addresses not
      already present, once each and in first-seen order. */
  lemma MergeParsedShape(prev: seq<string>, emails: seq<string>)
    requires NoDuplicates(prev)
    ensures MergeParsed(prev, emails) == prev + Dedup(Unseen(emails, prev))
    ensures NoDuplicates(MergeParsed(prev, emails))
    ensures forall e :: e in MergeParsed(prev, emails) <==> e in prev || e in emails
  {
    DedupAppend(prev, emails);
  }

  /** `addRecipient`: the new list and the new text of the input field. */
  function AddRecipient(prev: seq<string>, input: string): (string, seq<string>)
  {
    var trimmed := Trim(input);
    if trimmed != [] && '@' in trimmed then ("", Dedup(prev + [ToLower(trimmed)]))
    else (input, prev)
  }

  /** A typed address is added when, trimmed, it is non-empty and holds an
      '@': lowercased, at the end, unless it is already present, and the
      field is cleared; otherwise nothing changes. */
  lemma AddRecipientEffect(prev: seq<string>, input: string)
    requires NoDuplicates(prev)
    ensures var (field, r) := AddRecipient(prev, input);
      var x := ToLower(Trim(input));
      && (Trim(input) != [] && '@' in Trim(input) ==>
            && field == ""
            && (x in prev ==> r == prev)
            && (x !in prev ==> r == prev + [x]))
      && (Trim(input) == [] || '@' !in Trim(input) ==> field == input && r == prev)
  {
    var x := ToLower(Trim(input));
    DedupSnoc(prev, x);
    DedupOfDistinct(prev);
  }

  lemma AddedIsEntry(input: string)
    requires Trim(input) != [] && '@' in Trim(input)
    ensures Entry(ToLower(Trim(input)))
  {
    TrimmedEnds(input);
    LowerEntry(Trim(input));
  }

  /** Lower-casing a non-empty address with an '@' and no whitespace at
      either end makes an entry of the list. */
  lemma LowerEntry(t: string)
    requires t != [] && !IsWhitespace(t[0]) && !IsWhitespace(t[|t| - 1]) && '@' in t
    ensures Entry(ToLower(t))
  {
    var e := ToLower(t);
    ToLowerIsLower(t);
    LowerCharKeepsClass(t[0]);
    LowerCharKeepsClass(t[|t| - 1]);
    var k :| 0 <= k < |t| && t[k] == '@';
    LowerCharKeepsClass('@');
    assert e[k] == '@';
  }

  /** `removeRecipient`: `prev.filter((r) => r !== email)`. */
  function RemoveRecipient(prev: seq<string>, email: string): seq<string> {
    RemoveAll(prev, email)
  }

  /** Removing an address takes out its one occurrence and keeps the rest in
      order; removing an absent address changes nothing. */
  lemma RemoveRecipientEffect(prev: seq<string>, email: string)
    requires NoDuplicates(prev)
    ensures email in prev ==>
      var k := FirstIndex(prev, email);
      RemoveRecipient(prev, email) == prev[..k] + prev[k + 1..]
    ensures email !in prev ==> RemoveRecipient(prev, email) == prev
    ensures email !in RemoveRecipient(prev, email)
  {
    if email in prev {
      RemoveAtPosition(prev, FirstIndex(prev, email));
    } else {
      RemoveAbsent(prev, email);
    }
  }

  // ---------------------------------------------------------------- the form's list over time

  /** What the user does to the list: upload a file, add the typed text,
      click an address away. */
  datatype Edit = Upload(content: string) | Add(input: string) | Remove(email: string)

  function ApplyEdit(rs: seq<string>, edit: Edit): seq<string> {
    match edit
    case Upload(content) => MergeParsed(rs, ParsedEmails(content))
    case Add(input) => AddRecipient(rs, input).1
    case Remove(email) => RemoveRecipient(rs, email)
  }

  function ApplyEdits(rs: seq<string>, edits: seq<Edit>): seq<string>
    decreases |edits|
  {
    if edits == [] then rs else ApplyEdits(ApplyEdit(rs, edits[0]), edits[1..])
  }

  /** Each update keeps the list free of repeats and made of entries. */
  lemma ApplyEditKeepsWellFormed(rs: seq<string>, edit: Edit)
    requires WellFormedList(rs)
    ensures WellFormedList(ApplyEdit(rs, edit))
  {
    match edit
    case Upload(content) =>
      var r := ApplyEdit(rs, edit);
      ParsedEmailsContents(content);
      MergeParsedShape(rs, ParsedEmails(content));
      forall i | 0 <= i < |r| ensures Entry(r[i]) {
        assert r[i] in rs || r[i] in ParsedEmails(content);
      }
    case Add(input) =>
      var r := ApplyEdit(rs, edit);
      AddRecipientEffect(rs, input);
      if Trim(input) != [] && '@' in Trim(input) {
        AddedIsEntry(input);
        if ToLower(Trim(input)) !in rs {
          assert r == rs + [ToLower(Trim(input))];
          forall i | 0 <= i < |r| ensures Entry(r[i]) {
            if i < |rs| {
              assert r[i] == rs[i];
            }
          }
        }
      }
    case Remove(email) =>
      var r := ApplyEdit(rs, edit);
      RemoveKeepsDistinct(rs, email);
      forall i | 0 <= i < |r| ensures Entry(r[i]) {
        assert r[i] in rs;
      }
  }

  /** Whatever the user does, starting from the empty list the form opens
      with, the list stays free of repeats and made of entries. */
  lemma {:induction false} ApplyEditsKeepWellFormed(rs: seq<string>, edits: seq<Edit>)
    requires WellFormedList(rs)
    ensures WellFormedList(ApplyEdits(rs, edits))
    decreases |edits|
  {
    if edits != [] {
      ApplyEditKeepsWellFormed(rs, edits[0]);
      ApplyEditsKeepWellFormed(ApplyEdit(rs, edits[0]), edits[1..]);
    }
  }

  // ---------------------------------------------------------------- submitting

  /** `handleSubmit`'s required-field check: the error it shows, if any. */
  function SubmitError(subject: string, body: string, fromEmail: string, recipients: seq<string>): (r: Option<string>)
    ensures r.None? <==> subject != "" && body != "" && fromEmail != "" && |recipients| > 0
    ensures r.Some? ==> r.value == SUBMIT_ERROR
  {
    if subject == "" || body == "" || fromEmail == "" || |recipients| == 0 then Some(SUBMIT_ERROR) else None
  }

  /** A list the form submits comes through the scheduler's normalisation
      unchanged, so a submitted form is never refused for having no valid
      recipients. */
  lemma SubmittedListSchedulable(subject: string, body: string, fromEmail: string, edits: seq<Edit>)
    requires SubmitError(subject, body, fromEmail, ApplyEdits([], edits)).None?
    ensures var rs := ApplyEdits([], edits);
      Scheduler.NormalisedRecipients(rs) == rs && rs != []
  {
    var rs := ApplyEdits([], edits);
    ApplyEditsKeepWellFormed([], edits);
    Scheduler.NormalisedOfNormalForm(rs);
  }
}
