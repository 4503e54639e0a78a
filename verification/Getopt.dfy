/** The bundled option scanner (lib/contrib/getopti.c): a static position within
    the current word and four globals, advanced on each call, against a parser
    written as plain recursion over the words.  Diagnostics on standard error
    are left out; a C string is a Dafny string without its terminator. */
module Getopt {
  import opened Wire

  /** One step of a scan: an option, one with its argument, or a refusal ('?'). */
  datatype Item = Flag(c: char) | WithArg(c: char, arg: string) | Refused(c: char)

  datatype Parsed = Parsed(items: seq<Item>, operands: seq<string>)

  // ------------------------------------------------------------ option strings

  /** Index of the first occurrence, as strchr finds it, or the length. */
  function First(optstring: string, c: char): (k: nat)
    ensures k <= |optstring|
    ensures k < |optstring| ==> optstring[k] == c
    ensures forall j :: 0 <= j < k ==> optstring[j] != c
  {
    if optstring == "" then 0
    else if optstring[0] == c then 0
    else
      var k := First(optstring[1..], c);
      assert forall j :: 1 <= j <= k ==> optstring[j] == optstring[1..][j - 1];
      k + 1
  }

  predicate Legal(optstring: string, c: char) {
    c != ':' && First(optstring, c) < |optstring|
  }

  /** The option is followed by a colon where it first occurs. */
  predicate TakesArg(optstring: string, c: char) {
    Legal(optstring, c) && First(optstring, c) + 1 < |optstring| && optstring[First(optstring, c) + 1] == ':'
  }

  // ----------------------------------------------------------- the pure parser

  predicate IsOptionWord(w: string) {
    |w| >= 2 && w[0] == '-'
  }

  function Total(words: seq<string>): nat {
    if words == [] then 0 else 1 + |words[0]| + Total(words[1..])
  }

  function Cons(i: Item, p: Parsed): Parsed {
    Parsed([i] + p.items, p.operands)
  }

  /** Parses words from the start of one. */
  function Words(optstring: string, words: seq<string>): Parsed
    decreases Total(words), 1
  {
    if words == [] || !IsOptionWord(words[0]) then Parsed([], words)
    else if words[0] == "--" then Parsed([], words[1..])
    else Cluster(optstring, words[0], 1, words[1..])
  }

  /** Parses the options of a word from position `sp`, then the words after it. */
  function Cluster(optstring: string, word: string, sp: nat, rest: seq<string>): Parsed
    requires 1 <= sp < |word|
    decreases Total(rest) + |word| - sp + 1, 0
  {
    var c := word[sp];
    var last := sp + 1 == |word|;
    if !Legal(optstring, c) then
      Cons(Refused(c), if last then Words(optstring, rest) else Cluster(optstring, word, sp + 1, rest))
    else if TakesArg(optstring, c) then
      if !last then Cons(WithArg(c, word[sp + 1..]), Words(optstring, rest))
      else if rest == [] then Cons(Refused(c), Words(optstring, []))
      else Cons(WithArg(c, rest[0]), Words(optstring, rest[1..]))
    else
      Cons(Flag(c), if last then Words(optstring, rest) else Cluster(optstring, word, sp + 1, rest))
  }

  // -------------------------------------------------------------- the scanner

  lemma RestIs(argv: seq<string>, i: nat, rest: seq<string>)
    requires i < |argv| && rest == argv[i + 1..]
    ensures rest == [] <==> i + 1 == |argv|
    ensures rest != [] ==> rest[0] == argv[i + 1] && rest[1..] == argv[i + 2..]
  {
  }

  /** What a call returns and leaves in the globals for an item. */
  predicate Shows(i: Item, r: char, optopt: char, optarg: Option<string>) {
    && optopt == i.c
    && match i
       case Flag(c) => r == c && optarg == None
       case WithArg(c, a) => r == c && optarg == Some(a)
       case Refused(c) => r == '?'
  }

  /** Where the scan of a line ends, in its first word: the line is left as it is
      when that word is no option, and a "--" alone is stepped over. */
  lemma StopsIff(optstring: string, words: seq<string>)
    ensures Words(optstring, words) == Parsed([], words)
            <==> words == [] || |words[0]| < 2 || words[0][0] != '-'
    ensures Words(optstring, words).items == []
            <==> words == [] || |words[0]| < 2 || words[0][0] != '-' || words[0] == ['-', '-']
    ensures words != [] && words[0] == ['-', '-'] ==> Words(optstring, words) == Parsed([], words[1..])
  {
    if words != [] && |words[0]| >= 2 && words[0][0] == '-' && words[0] != "--" {
      assert Words(optstring, words) == Cluster(optstring, words[0], 1, words[1..]);
    }
  }

  lemma {:induction false} FirstIs(optstring: string, k: nat)
    requires k < |optstring| && optstring[k] !in optstring[..k]
    ensures First(optstring, optstring[k]) == k
  {
    if k > 0 {
      assert optstring[0] == optstring[..k][0];
      assert optstring[1..][..k - 1] == optstring[..k][1..];
      FirstIs(optstring[1..], k - 1);
    }
  }

  /** A character that is a colon or not in the option string is refused, and the
      scan goes on after it. */
  lemma IllegalRefused(optstring: string, word: string, sp: nat, rest: seq<string>)
    requires 1 <= sp < |word| && (word[sp] == ':' || word[sp] !in optstring)
    ensures var p := Cluster(optstring, word, sp, rest);
            var q := if sp + 1 == |word| then Words(optstring, rest) else Cluster(optstring, word, sp + 1, rest);
            p == Parsed([Refused(word[sp])] + q.items, q.operands)
  {
    if First(optstring, word[sp]) < |optstring| {
      assert word[sp] in optstring;
    }
  }

  /** A character that first occurs at `k` of the option string: alone it is an
      option; with a colon after it, it takes the rest of its word or else the
      next word, and is refused when there is none. */
  lemma LegalTaken(optstring: string, word: string, sp: nat, rest: seq<string>, k: nat)
    requires 1 <= sp < |word| && word[sp] != ':'
    requires k < |optstring| && optstring[k] == word[sp] && word[sp] !in optstring[..k]
    ensures var c, colon := word[sp], k + 1 < |optstring| && optstring[k + 1] == ':';
            var p, next := Cluster(optstring, word, sp, rest), Words(optstring, rest);
            && (colon && sp + 1 < |word| ==> p == Parsed([WithArg(c, word[sp + 1..])] + next.items, next.operands))
            && (colon && sp + 1 == |word| && rest == [] ==> p == Parsed([Refused(c)], []))
            && (colon && sp + 1 == |word| && rest != [] ==>
                  var after := Words(optstring, rest[1..]);
                  p == Parsed([WithArg(c, rest[0])] + after.items, after.operands))
            && (!colon && sp + 1 == |word| ==> p == Parsed([Flag(c)] + next.items, next.operands))
            && (!colon && sp + 1 < |word| ==>
                  var more := Cluster(optstring, word, sp + 1, rest);
                  p == Parsed([Flag(c)] + more.items, more.operands))
  {
    FirstIs(optstring, k);
  }

  lemma StartOfWord(optstring: string, argv: seq<string>, i: nat, sp: nat)
    requires i < |argv| && IsOptionWord(argv[i]) && argv[i] != "--"
    ensures Words(optstring, argv[i..]) == Cluster(optstring, argv[i], 1, argv[i + 1..])
  {
    assert argv[i..][1..] == argv[i + 1..];
  }

  class Scanner {
    const argv: seq<string>
    const optstring: string
    var sp: nat
    var optind: nat
    var optopt: char
    var optarg: Option<string>

    /** `optind` stays within argc and `sp` within the current word. */
    ghost predicate Valid()
      reads this
    {
      && sp >= 1 && optind >= 1
      && (|argv| >= 1 ==> optind <= |argv|)
      && (sp > 1 ==> optind < |argv| && sp < |argv[optind]| && IsOptionWord(argv[optind]))
    }

    /** What is still to come. */
    ghost function Rest(): Parsed
      requires Valid()
      reads this
    {
      if sp > 1 then Cluster(optstring, argv[optind], sp, argv[optind + 1..])
      else From(optind)
    }

    /** The words from index `i` on. */
    ghost function From(i: nat): Parsed {
      if i <= |argv| then Words(optstring, argv[i..]) else Parsed([], [])
    }

    constructor (argv: seq<string>, optstring: string)
      ensures Valid() && this.argv == argv && this.optstring == optstring
      ensures |argv| >= 1 ==> Rest() == Words(optstring, argv[1..])
    {
      this.argv, this.optstring := argv, optstring;
      sp, optind, optopt, optarg := 1, 1, '?', None;
    }

    /** The scan stands at an option. */
    ghost predicate AtOption()
      reads this
    {
      && Valid() && optind < |argv| && sp < |argv[optind]| && IsOptionWord(argv[optind])
      && optopt == argv[optind][sp]
    }

    ghost function Here(): Parsed
      requires AtOption()
      reads this
    {
      Cluster(optstring, argv[optind], sp, argv[optind + 1..])
    }

    /** After position `at` of word `w`: at the next of the word, or at the next word. */
    ghost predicate Stepped(w: nat, at: nat)
      requires w < |argv|
      reads this`sp, this`optind
    {
      if at + 1 < |argv[w]| then sp == at + 1 && optind == w else sp == 1 && optind == w + 1
    }

    /** Steps to the next option of the word, or to the next word. */
    method Advance(ghost i: Item)
      requires AtOption() && !TakesArg(optstring, optopt)
      requires i == if Legal(optstring, optopt) then Flag(optopt) else Refused(optopt)
      modifies this`sp, this`optind
      ensures Valid() && old(Here()) == Cons(i, Rest())
      ensures Stepped(old(optind), old(sp))
    {
      sp := sp + 1;
      if sp == |argv[optind]| {
        optind := optind + 1;
        sp := 1;
      }
    }

    /** Where an option with an argument at position `at` of word `w` leaves the scanner. */
    ghost predicate Argued(w: nat, at: nat, was: Option<string>, r: char)
      requires w < |argv| && at < |argv[w]|
      reads this
    {
      && sp == 1
      && (at + 1 < |argv[w]| ==> r == argv[w][at] && optarg == Some(argv[w][at + 1..]) && optind == w + 1)
      && (at + 1 == |argv[w]| && w + 1 < |argv| ==>
            r == argv[w][at] && optarg == Some(argv[w + 1]) && optind == w + 2)
      && (at + 1 == |argv[w]| && w + 1 == |argv| ==> r == '?' && optarg == was && optind == w + 1)
    }

    /** Takes the rest of the word, or the next word, as the argument. */
    method TakeArgument() returns (r: char, ghost i: Item)
      requires AtOption() && TakesArg(optstring, optopt)
      modifies this`sp, this`optind, this`optarg
      ensures Valid() && old(Here()) == Cons(i, Rest()) && Shows(i, r, optopt, optarg)
      ensures Argued(old(optind), old(sp), old(optarg), r)
    {
      ghost var rest := argv[optind + 1..];
      RestIs(argv, optind, rest);
      if sp + 1 < |argv[optind]| {
        optarg := Some(argv[optind][sp + 1..]);
        optind := optind + 1;
      } else {
        optind := optind + 1;
        if optind >= |argv| {
          sp := 1;
          return '?', Refused(optopt);
        }
        optarg := Some(argv[optind]);
        optind := optind + 1;
      }
      sp := 1;
      return optopt, WithArg(optopt, optarg.value);
    }

    /** Whether the scan ends here; steps over a "--". */
    method AtEnd() returns (done: bool)
      requires Valid()
      modifies this`optind
      ensures Valid()
      ensures done <==> sp == 1 && (old(optind) >= |argv| || |argv[old(optind)]| < 2 || argv[old(optind)][0] != '-'
                                    || argv[old(optind)] == ['-', '-'])
      ensures optind == if old(optind) < |argv| && argv[old(optind)] == ['-', '-'] && done
                        then old(optind) + 1 else old(optind)
      ensures done ==> sp == 1 && old(Rest()) == Parsed([], argv[if optind <= |argv| then optind else |argv|..])
      ensures !done ==>
                && optind == old(optind) < |argv| && sp < |argv[optind]| && IsOptionWord(argv[optind])
                && old(Rest()) == Cluster(optstring, argv[optind], sp, argv[optind + 1..])
    {
      if sp == 1 {
        if optind >= |argv| || |argv[optind]| < 2 || argv[optind][0] != '-' {
          return true;
        }
        if argv[optind] == "--" {
          optind := optind + 1;
          assert argv[old(optind)..][1..] == argv[optind..];
          return true;
        }
        StartOfWord(optstring, argv, optind, sp);
      }
      return false;
    }

    /** What the character at position `at` of word `w` comes to: '?' for a colon and
        for one that is not in the option string; with a colon after its first
        occurrence there, its argument; else the character itself. */
    ghost predicate Judged(w: nat, at: nat, was: Option<string>, r: char)
      requires w < |argv| && at < |argv[w]|
      reads this
    {
      var c := argv[w][at];
      && optopt == c
      && (c == ':' || c !in optstring ==> r == '?' && optarg == was && Stepped(w, at))
      && forall k :: c != ':' && 0 <= k < |optstring| && optstring[k] == c && c !in optstring[..k] ==>
           if k + 1 < |optstring| && optstring[k + 1] == ':' then Argued(w, at, was, r)
           else r == c && optarg == None && Stepped(w, at)
    }

    lemma JudgedByFirst(w: nat, at: nat, was: Option<string>, r: char, k: nat)
      requires w < |argv| && at < |argv[w]| && optopt == argv[w][at]
      requires k == First(optstring, optopt)
      requires optopt == ':' || k == |optstring| ==> r == '?' && optarg == was && Stepped(w, at)
      requires optopt != ':' && k < |optstring| ==>
                 if k + 1 < |optstring| && optstring[k + 1] == ':' then Argued(w, at, was, r)
                 else r == optopt && optarg == None && Stepped(w, at)
      ensures Judged(w, at, was, r)
    {
      hide Stepped, Argued;
      forall j | 0 <= j < |optstring| && optstring[j] == optopt && optopt !in optstring[..j] ensures j == k {
        FirstIs(optstring, j);
      }
      if k < |optstring| { assert optstring[k] == optopt; }
    }

    /** The part of getopt() after the test for the end. */
    method Choose() returns (r: char, ghost i: Item)
      requires Valid() && optind < |argv| && sp < |argv[optind]| && IsOptionWord(argv[optind])
      modifies this
      ensures Valid() && old(Cluster(optstring, argv[optind], sp, argv[optind + 1..])) == Cons(i, Rest())
      ensures Shows(i, r, optopt, optarg) && Judged(old(optind), old(sp), old(optarg), r)
    {
      hide Cluster, Words, From, Argued, Stepped, Judged;
      var c := argv[optind][sp];
      optopt := c;
      var k := First(optstring, c);
      if c == ':' || k == |optstring| {
        Advance(Refused(c));
        r, i := '?', Refused(c);
      } else if k + 1 < |optstring| && optstring[k + 1] == ':' {
        r, i := TakeArgument();
      } else {
        Advance(Flag(c));
        optarg := None;
        r, i := c, Flag(c);
      }
      JudgedByFirst(old(optind), old(sp), old(optarg), r, k);
    }

    /** getopt(): the first of what is to come, or the end of options.  The scan
        ends at the first word that is no option, leaving `optind` at it, or after
        a "--". */
    method Next() returns (r: Option<char>, ghost i: Item)
      requires Valid()
      modifies this
      ensures Valid()
      ensures r.None? ==> sp == 1 && old(Rest()) == Parsed([], argv[if optind <= |argv| then optind else |argv|..])
      ensures r.Some? ==> old(Rest()) == Cons(i, Rest()) && Shows(i, r.value, optopt, optarg)
      ensures r.None? <==>
                && old(sp) == 1
                && (old(optind) >= |argv| || |argv[old(optind)]| < 2 || argv[old(optind)][0] != '-'
                    || argv[old(optind)] == ['-', '-'])
      ensures r.None? ==>
                && optopt == old(optopt) && optarg == old(optarg)
                && optind == if old(optind) < |argv| && argv[old(optind)] == ['-', '-'] then old(optind) + 1
                             else old(optind)
      ensures r.Some? ==>
                && old(optind) < |argv| && old(sp) < |argv[old(optind)]|
                && Judged(old(optind), old(sp), old(optarg), r.value)
    {
      i := Refused('?');
      var done := AtEnd();
      if done {
        return None, i;
      }
      hide Cluster, Words, From, Judged;
      var c;
      c, i := Choose();
      return Some(c), i;
    }
  }

  /** What the caller sees of one call. */
  datatype Seen = Seen(r: char, optopt: char, optarg: Option<string>)

  predicate AllShow(items: seq<Item>, seen: seq<Seen>) {
    |items| == |seen| && forall i :: 0 <= i < |items| ==> Shows(items[i], seen[i].r, seen[i].optopt, seen[i].optarg)
  }

  /** Calling getopt() until it ends: it does end, with indices in range all
      along, having returned what the parser yields, `optind` at the operands. */
  method Scan(argv: seq<string>, optstring: string) returns (seen: seq<Seen>, optind: nat)
    requires |argv| >= 1
    ensures 1 <= optind <= |argv|
    ensures var p := Words(optstring, argv[1..]);
            AllShow(p.items, seen) && p.operands == argv[optind..]
  {
    var g := new Scanner(argv, optstring);
    ghost var all := g.Rest();
    seen := [];
    ghost var items: seq<Item> := [];
    var going := true;
    while going
      invariant fresh(g) && g.Valid() && g.argv == argv && g.optstring == optstring
      invariant AllShow(items, seen)
      invariant going ==> all == Parsed(items + g.Rest().items, g.Rest().operands)
      invariant !going ==> all == Parsed(items, argv[g.optind..])
      decreases going, if going then |g.Rest().items| else 0
    {
      var r, i := g.Next();
      if r.None? {
        assert items + [] == items;
        going := false;
      } else {
        items := items + [i];
        seen := seen + [Seen(r.value, g.optopt, g.optarg)];
        assert all.items == items + g.Rest().items;
      }
    }
    optind := g.optind;
  }

  // -------------------------------------------------------------- round trip

  /** A word of options as a user writes it: stand-alone options in a cluster,
      perhaps ended by one with an argument, attached or in the next word. */
  datatype OptionWord = OptionWord(flags: string, last: Option<(char, string)>, attached: bool)

  function Spelled(w: OptionWord): seq<string> {
    match w.last
    case None => ["-" + w.flags]
    case Some((c, arg)) => if w.attached then ["-" + w.flags + [c] + arg] else ["-" + w.flags + [c], arg]
  }

  function Flags(s: string): (r: seq<Item>)
    ensures |r| == |s|
  {
    if s == "" then [] else [Flag(s[0])] + Flags(s[1..])
  }

  function Meant(w: OptionWord): seq<Item> {
    Flags(w.flags) + (if w.last.Some? then [WithArg(w.last.value.0, w.last.value.1)] else [])
  }

  predicate AllFlags(optstring: string, s: string) {
    forall i :: 0 <= i < |s| ==> Legal(optstring, s[i]) && !TakesArg(optstring, s[i])
  }

  /** The word uses these options as they are declared. */
  predicate Proper(optstring: string, w: OptionWord) {
    && AllFlags(optstring, w.flags)
    && (w.last.None? ==> w.flags != "")
    && (w.last.Some? ==>
          && TakesArg(optstring, w.last.value.0)
          && (w.attached ==> w.last.value.1 != ""))
  }

  function SpelledAll(ws: seq<OptionWord>): seq<string> {
    if ws == [] then [] else Spelled(ws[0]) + SpelledAll(ws[1..])
  }

  function MeantAll(ws: seq<OptionWord>): seq<Item> {
    if ws == [] then [] else Meant(ws[0]) + MeantAll(ws[1..])
  }

  /** Through a run of stand-alone options in a word. */
  lemma {:induction false} ThroughFlags(optstring: string, word: string, sp: nat, k: nat, rest: seq<string>)
    requires 1 <= sp && sp + k < |word|
    requires AllFlags(optstring, word[sp..sp + k])
    ensures var p := Cluster(optstring, word, sp + k, rest);
            Cluster(optstring, word, sp, rest) == Parsed(Flags(word[sp..sp + k]) + p.items, p.operands)
    decreases k
  {
    if k > 0 {
      var s := word[sp..sp + k];
      assert s[1..] == word[sp + 1..sp + 1 + (k - 1)];
      assert s[0] == word[sp];
      ThroughFlags(optstring, word, sp + 1, k - 1, rest);
      var p := Cluster(optstring, word, sp + k, rest);
      assert [Flag(s[0])] + (Flags(s[1..]) + p.items) == Flags(s) + p.items;
    }
  }

  lemma FlagsSnoc(s: string, c: char)
    ensures Flags(s + [c]) == Flags(s) + [Flag(c)]
  {
    if s != "" {
      assert (s + [c])[1..] == s[1..] + [c];
      FlagsSnoc(s[1..], c);
    }
  }

  /** A spelled word is the terminator by accident: a lone option '-'. */
  predicate LooksLikeEnd(w: OptionWord) {
    Spelled(w)[0] == "--"
  }

  lemma FlagWord(optstring: string, w: OptionWord, rest: seq<string>)
    requires Proper(optstring, w) && w.last.None? && !LooksLikeEnd(w)
    ensures var p := Words(optstring, rest);
            Words(optstring, Spelled(w) + rest) == Parsed(Meant(w) + p.items, p.operands)
  {
    var n, word := |w.flags|, "-" + w.flags;
    assert Spelled(w) + rest == [word] + rest;
    assert ([word] + rest)[1..] == rest;
    assert word[1..1 + (n - 1)] == w.flags[..n - 1];
    assert word[n] == w.flags[n - 1];
    ThroughFlags(optstring, word, 1, n - 1, rest);
    FlagsSnoc(w.flags[..n - 1], w.flags[n - 1]);
    assert w.flags[..n - 1] + [w.flags[n - 1]] == w.flags;
    var p := Words(optstring, rest);
    assert Cluster(optstring, word, n, rest) == Cons(Flag(word[n]), p);
    assert Flags(w.flags[..n - 1]) + ([Flag(word[n])] + p.items) == Meant(w) + p.items;
  }

  lemma ArgumentWord(optstring: string, w: OptionWord, rest: seq<string>)
    requires Proper(optstring, w) && w.last.Some? && !LooksLikeEnd(w)
    ensures var p := Words(optstring, rest);
            Words(optstring, Spelled(w) + rest) == Parsed(Meant(w) + p.items, p.operands)
  {
    var n, c, arg := |w.flags|, w.last.value.0, w.last.value.1;
    var word, after := Spelled(w)[0], Spelled(w)[1..] + rest;
    assert Spelled(w) + rest == [word] + after;
    assert ([word] + after)[1..] == after;
    assert word[1..1 + n] == w.flags && word[1 + n] == c;
    ThroughFlags(optstring, word, 1, n, after);
    var p := Words(optstring, rest);
    assert Cluster(optstring, word, 1 + n, after) == Cons(WithArg(c, arg), p) by {
      if w.attached {
        assert word[1 + n + 1..] == arg && after == rest;
      } else {
        assert |word| == n + 2 && after == [arg] + rest && after[1..] == rest;
      }
    }
    hide Cluster;
    assert Flags(w.flags) + ([WithArg(c, arg)] + p.items) == Meant(w) + p.items;
  }

  /** Spelling options out and scanning them again gives them back, followed by
      whatever the rest of the line gives. */
  lemma {:induction false} LineRoundTrip(optstring: string, ws: seq<OptionWord>, rest: seq<string>)
    requires forall i :: 0 <= i < |ws| ==> Proper(optstring, ws[i]) && !LooksLikeEnd(ws[i])
    ensures var p := Words(optstring, rest);
            Words(optstring, SpelledAll(ws) + rest) == Parsed(MeantAll(ws) + p.items, p.operands)
  {
    hide Words, Cluster, Spelled, Meant, Proper, LooksLikeEnd;
    if ws == [] {
      assert SpelledAll(ws) + rest == rest;
    } else {
      var w, tail := ws[0], SpelledAll(ws[1..]) + rest;
      assert SpelledAll(ws) + rest == Spelled(w) + tail;
      LineRoundTrip(optstring, ws[1..], rest);
      if w.last.None? { FlagWord(optstring, w, tail); } else { ArgumentWord(optstring, w, tail); }
      var p := Words(optstring, rest);
      assert Meant(w) + (MeantAll(ws[1..]) + p.items) == MeantAll(ws) + p.items;
    }
  }

  /** Options followed by a word that is none, with no "--" between: the scan stops
      at that word. */
  lemma StopsAtOperand(optstring: string, ws: seq<OptionWord>, operands: seq<string>)
    requires forall i :: 0 <= i < |ws| ==> Proper(optstring, ws[i]) && !LooksLikeEnd(ws[i])
    requires operands == [] || |operands[0]| < 2 || operands[0][0] != '-'
    ensures Words(optstring, SpelledAll(ws) + operands) == Parsed(MeantAll(ws), operands)
  {
    LineRoundTrip(optstring, ws, operands);
    StopsIff(optstring, operands);
    assert MeantAll(ws) + [] == MeantAll(ws);
  }

  lemma {:induction false} SpelledSplit(ws: seq<OptionWord>, i: nat)
    requires i <= |ws|
    ensures SpelledAll(ws) == SpelledAll(ws[..i]) + SpelledAll(ws[i..])
  {
    hide Spelled;
    if i == 0 {
      assert ws[..0] == [] && ws[0..] == ws;
    } else {
      SpelledSplit(ws[1..], i - 1);
      assert ws[..i][0] == ws[0] && ws[..i][1..] == ws[1..][..i - 1] && ws[i..] == ws[1..][i - 1..];
      assert SpelledAll(ws[..i]) == Spelled(ws[0]) + SpelledAll(ws[1..][..i - 1]);
    }
  }

  lemma {:induction false} MeantSplit(ws: seq<OptionWord>, i: nat)
    requires i <= |ws|
    ensures MeantAll(ws) == MeantAll(ws[..i]) + MeantAll(ws[i..])
  {
    hide Meant;
    if i == 0 {
      assert ws[..0] == [] && ws[0..] == ws;
    } else {
      MeantSplit(ws[1..], i - 1);
      assert ws[..i][0] == ws[0] && ws[..i][1..] == ws[1..][..i - 1] && ws[i..] == ws[1..][i - 1..];
      assert MeantAll(ws[..i]) == Meant(ws[0]) + MeantAll(ws[1..][..i - 1]);
    }
  }

  lemma {:induction false} StopsEarly(optstring: string, ws: seq<OptionWord>, rest: seq<string>, i: nat)
    requires forall j :: 0 <= j < |ws| ==> Proper(optstring, ws[j])
    requires i < |ws| && LooksLikeEnd(ws[i]) && forall j :: 0 <= j < i ==> !LooksLikeEnd(ws[j])
    ensures |Words(optstring, SpelledAll(ws) + rest).items| < |MeantAll(ws)|
  {
    var tail := SpelledAll(ws[i..]) + rest;
    SpelledSplit(ws, i);
    MeantSplit(ws, i);
    assert SpelledAll(ws) + rest == SpelledAll(ws[..i]) + tail;
    LineRoundTrip(optstring, ws[..i], tail);
    assert ws[i..][0] == ws[i];
    assert tail[0] == "--";
    assert Words(optstring, tail).items == [];
    assert |Meant(ws[i])| > 0;
  }

  lemma FirstEnd(ws: seq<OptionWord>) returns (i: nat)
    requires exists j :: 0 <= j < |ws| && LooksLikeEnd(ws[j])
    ensures i < |ws| && LooksLikeEnd(ws[i]) && forall j :: 0 <= j < i ==> !LooksLikeEnd(ws[j])
  {
    i := 0;
    while !LooksLikeEnd(ws[i])
      invariant i < |ws| && forall j :: 0 <= j < i ==> !LooksLikeEnd(ws[j])
      decreases |ws| - i
    {
      i := i + 1;
    }
  }

  /** Scanning a rendered option list followed by "--" and operands returns that
      list and stops at the first operand, exactly when no rendered word is "--"
      itself: a lone option '-' cannot be told from the terminator. */
  lemma RoundTripIff(optstring: string, ws: seq<OptionWord>, operands: seq<string>)
    requires forall i :: 0 <= i < |ws| ==> Proper(optstring, ws[i])
    ensures Words(optstring, SpelledAll(ws) + (["--"] + operands)) == Parsed(MeantAll(ws), operands)
            <==> forall i :: 0 <= i < |ws| ==> !LooksLikeEnd(ws[i])
  {
    var rest := ["--"] + operands;
    if forall i :: 0 <= i < |ws| ==> !LooksLikeEnd(ws[i]) {
      LineRoundTrip(optstring, ws, rest);
      assert rest[1..] == operands;
      assert MeantAll(ws) + [] == MeantAll(ws);
    } else {
      var i := FirstEnd(ws);
      StopsEarly(optstring, ws, rest, i);
    }
  }
}
