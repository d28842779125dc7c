/** abc.js `Label` (abc.js:716-724): a branch target. Two labels are the same target only
    when they are the same object; an unnamed label is called `'$$label$' + (++labelIndex)`,
    with one counter for the whole program. */
module Labels {
  import opened Bytes
  import opened Assembler

  /** The program-wide `labelIndex`, and the number of labels created so far, which stands
      for the identity of the next object. */
  datatype Counters = Counters(labelIndex: nat, created: nat)

  /** The name the constructor gives an unnamed label when the counter has become n. */
  function AutoName(n: nat): (r: string)
    ensures |r| > 8 && r[..8] == "$$label$"
  {
    "$$label$" + NatToString(n)
  }

  /** `new Label(name)`; `None` is an omitted (undefined) name. */
  function NewLabel(c: Counters, name: Option<string>): (r: (Label, Counters))
    ensures r.0.id == c.created && r.1.created == c.created + 1
    ensures name.Some? ==> r.0.name == name.value && r.1.labelIndex == c.labelIndex
    ensures name.None? ==> r.0.name == AutoName(r.1.labelIndex) && r.1.labelIndex == c.labelIndex + 1
  {
    if name.Some? then (Label(c.created, name.value), c.(created := c.created + 1))
    else
      var n := c.labelIndex + 1;
      (Label(c.created, AutoName(n)), Counters(n, c.created + 1))
  }

  /** Different numbers have different decimal renderings. */
  lemma {:induction false} NatToStringInjective(a: nat, b: nat)
    requires NatToString(a) == NatToString(b)
    ensures a == b
    decreases a
  {
    var s := NatToString(a);
    assert s[|s| - 1] == (48 + a % 10) as char && s[|s| - 1] == (48 + b % 10) as char;
    assert a % 10 == b % 10;
    if a >= 10 && b >= 10 {
      assert NatToString(a / 10) == s[..|s| - 1] == NatToString(b / 10);
      NatToStringInjective(a / 10, b / 10);
    }
  }

  /** Every unnamed label gets a name of its own: the counter only grows, and two counter
      values give two names. */
  lemma AutoNamesDiffer(m: nat, n: nat)
    requires m != n
    ensures AutoName(m) != AutoName(n)
  {
    if AutoName(m) == AutoName(n) {
      assert AutoName(m)[8..] == NatToString(m);
      assert AutoName(n)[8..] == NatToString(n);
      NatToStringInjective(m, n);
    }
  }

  /** Two labels made one after the other are different targets, whatever their names, and
      two unnamed ones also have different names. */
  lemma SuccessiveLabels(c: Counters, n1: Option<string>, n2: Option<string>)
    ensures var (l1, c1) := NewLabel(c, n1);
      var (l2, _) := NewLabel(c1, n2);
      && l1 != l2
      && (n1.None? && n2.None? ==> l1.name != l2.name)
  {
    var (l1, c1) := NewLabel(c, n1);
    var (l2, _) := NewLabel(c1, n2);
    if n1.None? && n2.None? {
      AutoNamesDiffer(c.labelIndex + 1, c.labelIndex + 2);
    }
  }

  /** The creator of labels: the counters `new Label` reads and advances. */
  class LabelMaker {
    var labelIndex: nat
    var created: nat

    function State(): Counters
      reads this
    {
      Counters(labelIndex, created)
    }

    constructor()
      ensures State() == Counters(0, 0)
    {
      labelIndex, created := 0, 0;
    }

    /** `new abc.Label(name)`. */
    method New(name: Option<string>) returns (l: Label)
      modifies this
      ensures (l, State()) == NewLabel(old(State()), name)
    {
      l := Label(created, if name.Some? then name.value else AutoName(labelIndex + 1));
      if name.None? {
        labelIndex := labelIndex + 1;
      }
      created := created + 1;
    }
  }
}
