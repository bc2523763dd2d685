/**
 * The launch-history line: the configured template with the placeholders %a
 * (class name), %p (package name), %l (public label) and %n (newline) replaced,
 * in that order. Each placeholder is matched ASCII-case-insensitively and its
 * replacement is inserted literally, as `Pattern.CASE_INSENSITIVE |
 * Pattern.LITERAL` with `Matcher.quoteReplacement` do.
 */
module LaunchFormat {

  const NEWLINE: string := "\n"

  /** ASCII upper case; other characters are left as they are. */
  function UpperAscii(c: char): char {
    if 'a' <= c <= 'z' then (c as int - 32) as char else c
  }

  /** A placeholder for `letter` (`%` then the letter in either case) starts at index `i` of `s`. */
  predicate PlaceholderAt(s: string, i: int, letter: char) {
    0 <= i && i + 1 < |s| && s[i] == '%' && UpperAscii(s[i + 1]) == UpperAscii(letter)
  }

  /**
   * `replaceAll` of the placeholder for `letter` by `rep`: a left-to-right scan
   * over `s`; replacement text is never scanned again.
   */
  function ReplaceAll(s: string, letter: char, rep: string): (r: string)
    decreases |s|
  {
    if |s| < 2 then s
    else if PlaceholderAt(s, 0, letter) then rep + ReplaceAll(s[2..], letter, rep)
    else [s[0]] + ReplaceAll(s[1..], letter, rep)
  }

  /** The history text for a launch, built from the template as `performLaunch` does. */
  function FormatLaunch(template: string, className: string, packageName: string, publicLabel: string): (r: string)
  {
    var a := ReplaceAll(template, 'a', className);
    var p := ReplaceAll(a, 'p', packageName);
    var l := ReplaceAll(p, 'l', publicLabel);
    ReplaceAll(l, 'n', NEWLINE)
  }

  /** No placeholder for `letter` is left in `s`. */
  predicate Settled(s: string, letter: char) {
    forall i :: 0 <= i < |s| ==> !PlaceholderAt(s, i, letter)
  }

  /** `s` never has two `%` side by side. */
  predicate NoDoublePercent(s: string) {
    forall i :: 0 <= i < |s| - 1 ==> !(s[i] == '%' && s[i + 1] == '%')
  }

  /** `s` has no "%%" and no placeholder for any letter of `letters`. */
  predicate Resolved(s: string, letters: set<char>) {
    NoDoublePercent(s) && forall q :: q in letters ==> Settled(s, q)
  }

  /** Text without any placeholder for `letter` comes out unchanged. */
  lemma {:induction false} ReplaceAllKeepsSettled(s: string, letter: char, rep: string)
    requires Settled(s, letter)
    decreases |s|
    ensures ReplaceAll(s, letter, rep) == s
  {
    if |s| >= 2 {
      assert !PlaceholderAt(s, 0, letter);
      forall i | 0 <= i < |s[1..]| ensures !PlaceholderAt(s[1..], i, letter) {
        assert PlaceholderAt(s[1..], i, letter) ==> PlaceholderAt(s, i + 1, letter);
      }
      ReplaceAllKeepsSettled(s[1..], letter, rep);
      assert s == [s[0]] + s[1..];
    }
  }

  /**
   * The first placeholder for `letter`, in either case, is replaced by `rep`
   * inserted as it is: the text before it is kept, `rep` is not scanned again,
   * and scanning goes on after the placeholder.
   */
  lemma {:induction false} ReplaceAllAtPlaceholder(x: string, c: char, y: string, letter: char, rep: string)
    requires Settled(x, letter)
    requires 'a' <= letter <= 'z' && UpperAscii(c) == UpperAscii(letter)
    decreases |x|
    ensures ReplaceAll(x + ['%', c] + y, letter, rep) == x + rep + ReplaceAll(y, letter, rep)
  {
    var s := x + ['%', c] + y;
    if x == [] {
      assert PlaceholderAt(s, 0, letter) && s[2..] == y;
    } else {
      NoPlaceholderBefore(x, ['%', c] + y, letter);
      SettledTail(x, letter);
      ReplaceAllAtPlaceholder(x[1..], c, y, letter, rep);
      assert s == [x[0]] + (x[1..] + ['%', c] + y);
      assert x + rep == [x[0]] + (x[1..] + rep);
    }
  }

  /** Dropping the first character keeps text settled. */
  lemma SettledTail(x: string, letter: char)
    requires x != [] && Settled(x, letter)
    ensures Settled(x[1..], letter)
  {
    forall i | 0 <= i < |x[1..]| ensures !PlaceholderAt(x[1..], i, letter) {
      assert PlaceholderAt(x[1..], i, letter) ==> PlaceholderAt(x, i + 1, letter);
    }
  }

  /** Settled text followed by a `%` has no placeholder at its start, for a letter. */
  lemma NoPlaceholderBefore(x: string, z: string, letter: char)
    requires x != [] && Settled(x, letter) && z != [] && z[0] == '%'
    requires 'a' <= letter <= 'z'
    ensures !PlaceholderAt(x + z, 0, letter)
  {
    if |x| >= 2 {
      assert !PlaceholderAt(x, 0, letter);
    } else {
      assert (x + z)[1] == '%';
    }
  }

  /** A template without `%` is printed as it is. */
  lemma FormatLaunchPlain(template: string, className: string, packageName: string, publicLabel: string)
    requires '%' !in template
    ensures FormatLaunch(template, className, packageName, publicLabel) == template
  {
    forall q, i | 0 <= i < |template| ensures !PlaceholderAt(template, i, q) {
      assert template[i] in template;
    }
    ReplaceAllKeepsSettled(template, 'a', className);
    ReplaceAllKeepsSettled(template, 'p', packageName);
    ReplaceAllKeepsSettled(template, 'l', publicLabel);
    ReplaceAllKeepsSettled(template, 'n', NEWLINE);
  }

  /** The scan keeps a first character that is not `%`. */
  lemma ReplaceAllKeepsHead(s: string, letter: char, rep: string)
    requires s != [] && s[0] != '%'
    ensures ReplaceAll(s, letter, rep) != [] && ReplaceAll(s, letter, rep)[0] == s[0]
  {
  }

  /** Placeholders of `a + b` past the end of `a` are those of `b`, shifted. */
  lemma PlaceholderShift(a: string, b: string, letter: char)
    ensures forall i :: i >= |a| ==> (PlaceholderAt(a + b, i, letter) <==> PlaceholderAt(b, i - |a|, letter))
  {
  }

  /**
   * Replacing the placeholder for `letter` by text without `%` in a string
   * without "%%" settles `letter` and keeps every letter already settled settled:
   * the scan cannot glue a `%` to a letter.
   */
  lemma {:induction false} ReplaceAllResolves(s: string, letter: char, rep: string, letters: set<char>)
    requires Resolved(s, letters)
    requires '%' !in rep
    decreases |s|
    ensures Resolved(ReplaceAll(s, letter, rep), letters + {letter})
  {
    var all := letters + {letter};
    if |s| < 2 {
      forall q | q in all ensures Settled(s, q) {}
    } else {
      var skip := if PlaceholderAt(s, 0, letter) then 2 else 1;
      var tail := s[skip..];
      forall i | 0 <= i < |tail| - 1 ensures !(tail[i] == '%' && tail[i + 1] == '%') {
        assert tail[i] == s[i + skip] && tail[i + 1] == s[i + skip + 1];
      }
      forall q | q in letters ensures Settled(tail, q) {
        forall i | 0 <= i < |tail| ensures !PlaceholderAt(tail, i, q) {
          if PlaceholderAt(tail, i, q) {
            assert tail[i] == s[i + skip] && tail[i + 1] == s[i + skip + 1];
            assert PlaceholderAt(s, i + skip, q);
          }
        }
      }
      ReplaceAllResolves(tail, letter, rep, letters);
      var done := ReplaceAll(tail, letter, rep);
      var front := if skip == 2 then rep else [s[0]];
      assert ReplaceAll(s, letter, rep) == front + done;
      var r := front + done;
      forall q | q in all ensures Settled(r, q) {
        PlaceholderShift(front, done, q);
        forall i | 0 <= i < |front| ensures !PlaceholderAt(r, i, q) {
          if skip == 2 {
            assert r[i] == rep[i] && rep[i] in rep;
          } else if s[0] == '%' {
            assert !(s[0] == '%' && s[1] == '%');
            ReplaceAllKeepsHead(tail, letter, rep);
            assert r[0] == s[0] && r[1] == s[1];
            assert !PlaceholderAt(s, 0, q);
          }
        }
      }
      forall i | 0 <= i < |r| - 1 ensures !(r[i] == '%' && r[i + 1] == '%') {
        if i >= |front| {
          assert r[i] == done[i - |front|] && r[i + 1] == done[i - |front| + 1];
        } else if skip == 2 {
          assert r[i] == rep[i] && rep[i] in rep;
        } else if s[0] == '%' {
          assert !(s[0] == '%' && s[1] == '%');
          ReplaceAllKeepsHead(tail, letter, rep);
          assert r[1] == s[1];
        }
      }
    }
  }

  /**
   * When the template has no "%%" and the class name, package name and public label
   * hold no `%`, the history text keeps none of the four placeholders.
   */
  lemma FormatLaunchResolves(template: string, className: string, packageName: string, publicLabel: string)
    requires NoDoublePercent(template)
    requires '%' !in className && '%' !in packageName && '%' !in publicLabel
    ensures Resolved(FormatLaunch(template, className, packageName, publicLabel), {'a', 'p', 'l', 'n'})
  {
    var a := ReplaceAll(template, 'a', className);
    ReplaceAllResolves(template, 'a', className, {});
    var p := ReplaceAll(a, 'p', packageName);
    ReplaceAllResolves(a, 'p', packageName, {} + {'a'});
    var l := ReplaceAll(p, 'l', publicLabel);
    ReplaceAllResolves(p, 'l', publicLabel, {} + {'a'} + {'p'});
    ReplaceAllResolves(l, 'n', NEWLINE, {} + {'a'} + {'p'} + {'l'});
    assert {} + {'a'} + {'p'} + {'l'} + {'n'} == {'a', 'p', 'l', 'n'};
  }

  /**
   * The substitutions run one after another, so a `%p` inside the class name is
   * itself replaced by the package name, and `%A` matches like `%a`.
   */
  lemma SubstitutionIsSequential()
    ensures FormatLaunch("%A", "x%py", "pkg", "L") == "xpkgy"
  {
  }
}
