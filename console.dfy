/**
 * Standard output as the components write it: a list of printed lines, and the
 * panic, if any, that stopped the run after them.
 */
module Console {
  import opened Wrappers
  import opened Tools
  import opened Tables

  /** One `println!`. */
  datatype Output =
    | Text(s: StyledText)                      // the text itself
    | TableLine(table: TableView, index: nat)  // `"  {line}"` for line `index` of the table's layout
    | WholeTable(table: TableView)             // `"{table}"`: every line of the table's layout
    | SystemReport(titleCommand: string, titleColor: string, showUpTime: bool)  // the System section

  /** Why the process panics. */
  datatype Fault =
    | BarPanic(bar: BarFault)  // inside `process_str`
    | EmptyMaximum             // `max().unwrap()` over no lines

  /** What was printed, and the panic that ended the output if there was one. */
  datatype Printed = Printed(lines: seq<Output>, fault: Option<Fault>)

  const Nothing := Printed([], None)

  const Blank := Text([])

  function Say(s: string): Output
  {
    Text([Str(s)])
  }

  /** `println!("  {s}")`. */
  function Indented(s: StyledText): Output
  {
    Text([Str("  ")] + s)
  }

  /** `a`'s output followed by `b`'s; nothing runs after a panic. */
  function Then(a: Printed, b: Printed): Printed
  {
    if a.fault.Some? then a else Printed(a.lines + b.lines, b.fault)
  }

  /** The first `n` outputs of `ps`, one after another; nothing runs after a panic. */
  function Chain(ps: seq<Printed>, n: nat): Printed
    requires n <= |ps|
  {
    if n == 0 then Nothing else Then(Chain(ps, n - 1), ps[n - 1])
  }

  /** Once an output panics, nothing after it is printed. */
  lemma {:induction false} ChainAfterFault(ps: seq<Printed>, k: nat, n: nat)
    requires k <= n <= |ps|
    requires Chain(ps, k).fault.Some?
    ensures Chain(ps, n) == Chain(ps, k)
  {
    if n > k {
      ChainAfterFault(ps, k, n - 1);
    }
  }

  /** Output only grows: the first `k` outputs print a prefix of what the first `n` print. */
  lemma {:induction false} ChainPrefix(ps: seq<Printed>, k: nat, n: nat)
    requires k <= n <= |ps|
    ensures Chain(ps, k).lines <= Chain(ps, n).lines
  {
    if n > k {
      ChainPrefix(ps, k, n - 1);
    }
  }

  /** Without a panic among them, the lines are all of the outputs' lines, in order. */
  lemma {:induction false} ChainWithoutFault(ps: seq<Printed>, n: nat)
    requires n <= |ps|
    requires forall k :: 0 <= k < n ==> ps[k].fault.None?
    ensures Chain(ps, n).fault.None?
    ensures Chain(ps, n).lines == Flatten(ps[..n])
  {
    if n > 0 {
      ChainWithoutFault(ps, n - 1);
      assert ps[..n][..n - 1] == ps[..n - 1];
    }
  }

  /** Every line of `ps`, in order. */
  function Flatten(ps: seq<Printed>): seq<Output>
  {
    if ps == [] then [] else Flatten(ps[..|ps| - 1]) + ps[|ps| - 1].lines
  }
}
