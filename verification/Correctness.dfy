/** From tokens to behaviour: the compiler and the machine together run printed programs as the
    semantics says. */
module Correctness {
  import Bytes
  import opened Values
  import opened Machine
  import opened Syntax
  import opened Semantics
  import opened CodeGen
  import opened Runs
  import opened EndToEnd
  import opened Handlers
  import opened Parsing
  import opened Printing
  import opened Compilation
  import opened Forward

  /** A well-typed program within the limits of the compiler. */
  predicate WithinLimits(p: Program) {
    OkProgram(p) && Fits(p) && NoNatives(p) && FewForwardCalls(p)
  }

  /** The compiler accepts the printed program, and vm_run on its output stops with a result and an output
      exactly when the program does, if no run of it opens a seventeenth handler. */
  lemma CompilerAndMachineAreCorrect(p: Program, why: Halt, out: seq<Value>)
    requires WithinLimits(p) && EnoughHandlers(p)
    ensures var r := Compile(PrintProgram(p));
      r.Compiled? && (VmStops(r.code, Init(), why, out) <==> exists fuel: nat :: RunProgram(p, fuel) == Ends(why, out))
  {
    hide OkProgram, Fits, NoNatives, FewForwardCalls, EnoughHandlers, VmStops, RunProgram, Compile, PrintProgram, ProgramBytes, Init;
    CompilePrinted(p);
    VmIsCorrect(p, why, out);
    Matches(Compile(PrintProgram(p)), ProgramBytes(p));
  }

  /** The same by the text of the program alone: d shows that no chain of calls nests more than sixteen
      try blocks. */
  lemma CorrectByText(p: Program, d: Bounds, why: Halt, out: seq<Value>)
    requires WithinLimits(p) && NestsFewTries(p, d)
    ensures var r := Compile(PrintProgram(p));
      r.Compiled? && (VmStops(r.code, Init(), why, out) <==> exists fuel: nat :: RunProgram(p, fuel) == Ends(why, out))
  {
    hide WithinLimits, NestsFewTries, EnoughHandlers, VmStops, RunProgram, Compile, PrintProgram, Init;
    FewTriesAreEnough(p, d);
    CompilerAndMachineAreCorrect(p, why, out);
  }

  /** It runs for ever exactly when the program does. */
  lemma DivergenceFromTokens(p: Program)
    requires WithinLimits(p) && EnoughHandlers(p)
    ensures var r := Compile(PrintProgram(p));
      r.Compiled? && (GoesOn(r.code, Init()) <==> forall fuel: nat :: RunProgram(p, fuel).Running?)
  {
    hide OkProgram, Fits, NoNatives, FewForwardCalls, EnoughHandlers, RunMain, Compile, PrintProgram, ProgramBytes, Init, GoesOn;
    CompilePrinted(p);
    VmDiverges(p);
    Matches(Compile(PrintProgram(p)), ProgramBytes(p));
    MeansTheSame(p);
  }

  lemma MeansTheSame(p: Program)
    ensures Diverges(p, false) <==> forall fuel: nat :: RunProgram(p, fuel).Running?
  {
    hide RunMain;
    if forall fuel: nat :: RunProgram(p, fuel).Running? {
      forall fuel: nat
        ensures RunMain(p, false, fuel).Running?
      {
        assert RunProgram(p, fuel).Running?;
      }
    }
  }

  /** The compiler is not to blame for handlers: on a machine without a limit on them its output does what
      the program means, whatever the program. */
  lemma CompilerIsCorrect(p: Program, why: Halt, out: seq<Value>)
    requires WithinLimits(p)
    ensures var r := Compile(PrintProgram(p));
      r.Compiled? && (VmStops(r.code, Boot(false), why, out) <==> exists fuel: nat :: RunProgram(p, fuel) == Ends(why, out))
  {
    hide OkProgram, Fits, NoNatives, FewForwardCalls, VmStops, RunProgram, Compile, PrintProgram, ProgramBytes, Boot;
    CompilePrinted(p);
    FreeVmIsCorrect(p, why, out);
    Matches(Compile(PrintProgram(p)), ProgramBytes(p));
  }

  /** On the output of the compiler vm_run goes through the states of that machine if and only if the
      program never opens a seventeenth handler. */
  lemma TogetherIffEnoughHandlers(p: Program)
    requires WithinLimits(p)
    ensures var r := Compile(PrintProgram(p)); r.Compiled? && (GoTogether(r.code) <==> EnoughHandlers(p))
  {
    hide OkProgram, Fits, NoNatives, FewForwardCalls, EnoughHandlers, GoTogether, Compile, PrintProgram, ProgramBytes;
    CompilePrinted(p);
    TogetherIffEnough(p);
    Matches(Compile(PrintProgram(p)), ProgramBytes(p));
  }

  lemma Matches(r: Compiled, code: seq<Bytes.byte>)
    requires r == Compiled.Compiled(code)
    ensures r.Compiled? && r.code == code
  {}
}
