/** Splitting strings at a separator and joining them; for domain names the separator is a dot. */
module Names {

  predicate Label(s: string, sep: char := '.') { sep !in s }

  /** `strings.Split`, for a separator of one character. */
  function Split(s: string, sep: char := '.'): (labels: seq<string>)
    ensures |labels| >= 1
  {
    if s == "" then [""]
    else if s[0] == sep then [""] + Split(s[1..], sep)
    else
      var rest := Split(s[1..], sep);
      [[s[0]] + rest[0]] + rest[1..]
  }

  /** `strings.Join`, likewise. */
  function Join(labels: seq<string>, sep: char := '.'): string
    requires |labels| >= 1
  {
    if |labels| == 1 then labels[0] else labels[0] + [sep] + Join(labels[1..], sep)
  }

  lemma {:induction false} JoinSplit(s: string, sep: char := '.')
    ensures Join(Split(s, sep), sep) == s
    ensures forall i | 0 <= i < |Split(s, sep)| :: Label(Split(s, sep)[i], sep)
  {
    if s != "" {
      JoinSplit(s[1..], sep);
      var rest := Split(s[1..], sep);
      if s[0] == sep {
        assert Split(s, sep)[1..] == rest;
        assert s == [sep] + s[1..];
      } else {
        JoinFirst(s[0], rest, sep);
        assert s == [s[0]] + s[1..];
      }
    }
  }

  /** A character in front of the first label is in front of the whole. */
  lemma JoinFirst(c: char, labels: seq<string>, sep: char)
    requires |labels| >= 1
    ensures Join([[c] + labels[0]] + labels[1..], sep) == [c] + Join(labels, sep)
  {
    var more := [[c] + labels[0]] + labels[1..];
    assert more[1..] == labels[1..];
    if |labels| > 1 {
      assert ([c] + labels[0]) + [sep] + Join(labels[1..], sep) == [c] + (labels[0] + [sep] + Join(labels[1..], sep));
    }
  }

  lemma {:induction false} SplitJoin(labels: seq<string>, sep: char := '.')
    requires |labels| >= 1 && forall i | 0 <= i < |labels| :: Label(labels[i], sep)
    ensures Split(Join(labels, sep), sep) == labels
    decreases |labels|, |labels[0]|
  {
    var s := Join(labels, sep);
    if labels[0] == "" {
      if |labels| > 1 {
        SplitJoin(labels[1..], sep);
        assert s == [sep] + Join(labels[1..], sep) && s[1..] == Join(labels[1..], sep);
        assert labels == [""] + labels[1..];
      }
    } else {
      var shorter := [labels[0][1..]] + labels[1..];
      forall i | 0 <= i < |shorter| ensures Label(shorter[i], sep) {
        assert Label(labels[i], sep);
      }
      assert shorter[1..] == labels[1..];
      assert s[1..] == Join(shorter, sep);
      SplitJoin(shorter, sep);
      assert s[0] == labels[0][0] && labels[0] == [s[0]] + labels[0][1..];
      assert labels == [[s[0]] + shorter[0]] + shorter[1..];
    }
  }

  lemma {:induction false} FirstLabel(first: string, rest: string, sep: char := '.')
    requires Label(first, sep)
    ensures Split(first + [sep] + rest, sep)[0] == first
  {
    var s := first + [sep] + rest;
    if first != "" {
      assert s[1..] == first[1..] + [sep] + rest;
      FirstLabel(first[1..], rest, sep);
    }
  }

  /** A name has a dot exactly when it has at least two labels. */
  lemma {:induction false} DotLabels(s: string)
    ensures '.' in s <==> |Split(s)| >= 2
  {
    if s != "" {
      DotLabels(s[1..]);
    }
  }

  lemma {:induction false} SplitSuffix(pre: string, suf: string)
    ensures |Split(pre + "." + suf)| > |Split(suf)|
    ensures Split(pre + "." + suf)[|Split(pre + "." + suf)| - |Split(suf)|..] == Split(suf)
  {
    var s := pre + "." + suf;
    if pre == "" {
      assert s[1..] == suf;
    } else {
      assert s[1..] == pre[1..] + "." + suf;
      SplitSuffix(pre[1..], suf);
    }
  }
}
