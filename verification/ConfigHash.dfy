/** The string that is hashed to decide which recorded runs belong to the same configuration. */
module ConfigHash {
  import opened Common
  import opened Solver

  // ----- joining and splitting on the separator

  const SEPARATOR := '|'

  function Join(parts: seq<string>): string {
    if |parts| == 0 then ""
    else if |parts| == 1 then parts[0]
    else parts[0] + [SEPARATOR] + Join(parts[1..])
  }

  /** The pieces of s between separators; always at least one. */
  function Split(s: string): (parts: seq<string>)
    ensures parts != []
  {
    if s == "" then [""]
    else
      var rest := Split(s[1..]);
      if s[0] == SEPARATOR then [""] + rest else [[s[0]] + rest[0]] + rest[1..]
  }

  predicate SeparatorFree(s: string) {
    SEPARATOR !in s
  }

  predicate AllSeparatorFree(parts: seq<string>) {
    forall i | 0 <= i < |parts| :: SeparatorFree(parts[i])
  }

  lemma {:induction false} SplitPiece(p: string, rest: string)
    requires SeparatorFree(p)
    ensures Split(p) == [p]
    ensures Split(p + [SEPARATOR] + rest) == [p] + Split(rest)
  {
    if p == "" {
      assert p + [SEPARATOR] + rest == [SEPARATOR] + rest;
    } else {
      SplitPiece(p[1..], rest);
      assert (p + [SEPARATOR] + rest)[1..] == p[1..] + [SEPARATOR] + rest;
      assert p[0] in p;
      assert [p[0]] + p[1..] == p;
    }
  }

  /** Splitting undoes joining on separator-free parts. */
  lemma {:induction false} SplitJoin(parts: seq<string>)
    requires parts != [] && AllSeparatorFree(parts)
    ensures Split(Join(parts)) == parts
  {
    if |parts| == 1 {
      SplitPiece(parts[0], "");
    } else {
      SplitPiece(parts[0], Join(parts[1..]));
      SplitJoin(parts[1..]);
    }
  }

  lemma JoinInjective(xs: seq<string>, ys: seq<string>)
    requires xs != [] && ys != [] && AllSeparatorFree(xs) && AllSeparatorFree(ys)
    ensures Join(xs) == Join(ys) <==> xs == ys
  {
    SplitJoin(xs);
    SplitJoin(ys);
  }

  // ----- joining in general

  /** The pieces of all the strings in order; a lone empty piece when there is no string. */
  function Pieces(parts: seq<string>): (pieces: seq<string>)
    ensures pieces != []
  {
    if |parts| == 0 then [""]
    else if |parts| == 1 then Split(parts[0])
    else Split(parts[0]) + Pieces(parts[1..])
  }

  lemma {:induction false} SplitConcat(p: string, rest: string)
    ensures Split(p + [SEPARATOR] + rest) == Split(p) + Split(rest)
  {
    var s := p + [SEPARATOR] + rest;
    if p == "" {
      assert s[1..] == rest;
    } else {
      SplitConcat(p[1..], rest);
      assert s[1..] == p[1..] + [SEPARATOR] + rest;
      ConsPieces(s[0], Split(p[1..]), Split(rest));
    }
  }

  /** What Split does with a first character and the pieces of what follows it. */
  function Cons(c: char, pieces: seq<string>): seq<string>
    requires pieces != []
  {
    if c == SEPARATOR then [""] + pieces else [[c] + pieces[0]] + pieces[1..]
  }

  lemma ConsPieces(c: char, left: seq<string>, right: seq<string>)
    requires left != []
    ensures Cons(c, left + right) == Cons(c, left) + right
  {
    assert (left + right)[0] == left[0] && (left + right)[1..] == left[1..] + right;
  }

  lemma {:induction false} SplitJoined(parts: seq<string>)
    ensures Split(Join(parts)) == Pieces(parts)
  {
    if |parts| > 1 {
      SplitConcat(parts[0], Join(parts[1..]));
      SplitJoined(parts[1..]);
    }
  }

  lemma JoinCons(c: char, pieces: seq<string>)
    requires pieces != []
    ensures Join(Cons(c, pieces)) == [c] + Join(pieces)
  {
    if c == SEPARATOR {
      assert ([""] + pieces)[1..] == pieces;
      assert "" + [SEPARATOR] + Join(pieces) == [c] + Join(pieces);
    } else if |pieces| > 1 {
      assert Cons(c, pieces)[1..] == pieces[1..];
      assert ([c] + pieces[0]) + [SEPARATOR] + Join(pieces[1..]) == [c] + (pieces[0] + [SEPARATOR] + Join(pieces[1..]));
    }
  }

  /** Joining undoes splitting on every string. */
  lemma {:induction false} JoinSplit(s: string)
    ensures Join(Split(s)) == s
  {
    if s != "" {
      JoinSplit(s[1..]);
      JoinCons(s[0], Split(s[1..]));
      assert [s[0]] + s[1..] == s;
    }
  }

  /** Any two lists of strings join to one string exactly when their pieces are the same. */
  lemma JoinIff(xs: seq<string>, ys: seq<string>)
    ensures Join(xs) == Join(ys) <==> Pieces(xs) == Pieces(ys)
  {
    SplitJoined(xs);
    SplitJoined(ys);
    JoinSplit(Join(xs));
    JoinSplit(Join(ys));
  }

  /** Equally many strings, and equally many separators in each pair. */
  predicate Aligned(xs: seq<string>, ys: seq<string>) {
    |xs| == |ys| && forall i | 0 <= i < |xs| :: |Split(xs[i])| == |Split(ys[i])|
  }

  lemma PrefixesAgree(p: seq<string>, q: seq<string>, r: seq<string>, s: seq<string>)
    requires |p| == |q| && p + r == q + s
    ensures p == q && r == s
  {
    assert p == (p + r)[..|p|] && q == (q + s)[..|q|];
    assert r == (p + r)[|p|..] && s == (q + s)[|q|..];
  }

  /** What joining loses is where the strings begin and end, and nothing else. */
  lemma {:induction false} AlignedJoinIff(xs: seq<string>, ys: seq<string>)
    ensures xs == ys <==> Join(xs) == Join(ys) && Aligned(xs, ys)
  {
    JoinIff(xs, ys);
    if Pieces(xs) == Pieces(ys) && Aligned(xs, ys) && xs != [] {
      var x, y := xs[0], ys[0];
      assert |Split(x)| == |Split(y)|;
      JoinSplit(x);
      JoinSplit(y);
      if |xs| == 1 {
        assert xs == [x] && ys == [y];
      } else {
        PrefixesAgree(Split(x), Split(y), Pieces(xs[1..]), Pieces(ys[1..]));
        JoinIff(xs[1..], ys[1..]);
        AlignedTail(xs, ys);
        AlignedJoinIff(xs[1..], ys[1..]);
        assert xs == [x] + xs[1..] && ys == [y] + ys[1..];
      }
    }
  }

  lemma AlignedTail(xs: seq<string>, ys: seq<string>)
    requires Aligned(xs, ys) && xs != []
    ensures Aligned(xs[1..], ys[1..])
  {
    forall i | 0 <= i < |xs| - 1
      ensures |Split(xs[1..][i])| == |Split(ys[1..][i])|
    {
      assert |Split(xs[i + 1])| == |Split(ys[i + 1])|;
    }
  }

  // ----- decimal numerals

  function Digit(d: int): char
    requires 0 <= d < 10
  {
    (48 + d) as char
  }

  function Digits(n: nat): (s: string)
    ensures s != [] && forall i | 0 <= i < |s| :: '0' <= s[i] <= '9'
  {
    if n < 10 then [Digit(n)] else Digits(n / 10) + [Digit(n % 10)]
  }

  function Itoa(n: int): string {
    if n < 0 then "-" + Digits(-n) else Digits(n)
  }

  function Value(s: string): int {
    if s == "" then 0 else 10 * Value(s[..|s| - 1]) + (s[|s| - 1] as int - 48)
  }

  lemma {:induction false} ValueOfDigits(n: nat)
    ensures Value(Digits(n)) == n
  {
    if n >= 10 {
      ValueOfDigits(n / 10);
      assert Digits(n)[..|Digits(n)| - 1] == Digits(n / 10);
    } else {
      assert Value([Digit(n)]) == 10 * Value("") + n;
    }
  }

  function Atoi(s: string): int {
    if s != "" && s[0] == '-' then -Value(s[1..]) else Value(s)
  }

  lemma AtoiOfItoa(n: int)
    ensures Atoi(Itoa(n)) == n && SeparatorFree(Itoa(n))
  {
    var digits := Digits(if n < 0 then -n else n);
    ValueOfDigits(if n < 0 then -n else n);
    assert digits[0] != '-';
    assert ("-" + digits)[1..] == digits;
  }

  lemma ItoaInjective(m: int, n: int)
    ensures Itoa(m) == Itoa(n) <==> m == n
    ensures SeparatorFree(Itoa(m))
  {
    AtoiOfItoa(m);
    AtoiOfItoa(n);
  }

  // ----- the fields that identify a configuration

  datatype HardwareType = AnyHardware | CPU | GPU

  datatype Training = Training(batchSize: int, gradAccumulationSteps: int, epochs: int, validationSplit: string)

  datatype SparkApp = SparkApp(image: string, mainFile: string, arguments: seq<string>)

  datatype Job = Job(
    backend: Backend,
    machineType: string,
    hardwareType: HardwareType,
    gpuLimit: bool,           // a GPU among the resource limits of the pytorch spec
    hasPytorchSpec: bool,
    modelName: string,        // "" when the job names no model
    datasetName: string,
    datasetSplit: string,
    training: Training,       // zeros and "" when the job gives none
    spark: Option<SparkApp>
  )

  function BackendName(b: Backend): string {
    match b
    case PyTorch => "pytorch"
    case Spark => "spark"
    case PlainJob => "job"
    case OtherBackend => "other"
  }

  /** The parts that are joined; `digest` is the hash applied to the joined arguments of a Spark job. */
  function Parts(job: Job, digest: string -> string): (parts: seq<string>)
    ensures |parts| >= 2
  {
    var head := [BackendName(job.backend), job.machineType];
    match job.backend
    case PyTorch =>
      head + [job.modelName, job.datasetName, job.datasetSplit,
              Itoa(job.training.batchSize), Itoa(job.training.gradAccumulationSteps), Itoa(job.training.epochs),
              job.training.validationSplit]
    case Spark =>
      head + (match job.spark
              case None => ["", "", ""]
              case Some(app) => [app.image, app.mainFile, digest(Join(app.arguments))])
    case _ => head
  }

  function PreHash(job: Job, digest: string -> string): string {
    Join(Parts(job, digest))
  }

  /** Injective, with separator-free results: what is assumed of the digest. */
  ghost predicate GoodDigest(digest: string -> string) {
    && (forall s :: SeparatorFree(digest(s)))
    && (forall s, t :: digest(s) == digest(t) ==> s == t)
  }

  ghost predicate CleanFields(job: Job, digest: string -> string) {
    && SeparatorFree(job.machineType) && SeparatorFree(job.modelName)
    && SeparatorFree(job.datasetName) && SeparatorFree(job.datasetSplit)
    && SeparatorFree(job.training.validationSplit)
    && (job.spark.Some? ==> SeparatorFree(job.spark.value.image) && SeparatorFree(job.spark.value.mainFile))
  }

  lemma PartsClean(job: Job, digest: string -> string)
    requires CleanFields(job, digest) && GoodDigest(digest)
    ensures AllSeparatorFree(Parts(job, digest))
  {
    ItoaInjective(job.training.batchSize, 0);
    ItoaInjective(job.training.gradAccumulationSteps, 0);
    ItoaInjective(job.training.epochs, 0);
  }

  lemma PiecesFirst(parts: seq<string>)
    requires |parts| >= 2 && SeparatorFree(parts[0])
    ensures Pieces(parts) == [parts[0]] + Pieces(parts[1..])
  {
    SplitPiece(parts[0], "");
  }

  /** Jobs of different backends never share a configuration, whatever their fields hold. */
  lemma BackendsKeptApart(a: Job, b: Job, digest: string -> string)
    requires PreHash(a, digest) == PreHash(b, digest)
    ensures a.backend == b.backend
  {
    var ps, qs := Parts(a, digest), Parts(b, digest);
    JoinIff(ps, qs);
    PiecesFirst(ps);
    PiecesFirst(qs);
    assert Pieces(ps)[0] == Pieces(qs)[0];
    assert BackendName(a.backend)[0] == BackendName(b.backend)[0];
  }

  /** Two jobs share a configuration exactly when the parts of both fall into the same pieces. */
  lemma PreHashIff(a: Job, b: Job, digest: string -> string)
    ensures PreHash(a, digest) == PreHash(b, digest) <==> Pieces(Parts(a, digest)) == Pieces(Parts(b, digest))
  {
    JoinIff(Parts(a, digest), Parts(b, digest));
  }

  predicate SamePytorchFields(a: Job, b: Job) {
    && a.machineType == b.machineType && a.modelName == b.modelName
    && a.datasetName == b.datasetName && a.datasetSplit == b.datasetSplit
    && a.training == b.training
  }

  lemma PytorchFieldsIff(a: Job, b: Job, digest: string -> string)
    requires a.backend.PyTorch? && b.backend.PyTorch?
    ensures SamePytorchFields(a, b) <==> Parts(a, digest) == Parts(b, digest)
  {
    var ps, qs := Parts(a, digest), Parts(b, digest);
    ItoaInjective(a.training.batchSize, b.training.batchSize);
    ItoaInjective(a.training.gradAccumulationSteps, b.training.gradAccumulationSteps);
    ItoaInjective(a.training.epochs, b.training.epochs);
    if ps == qs {
      assert ps[1] == qs[1] && ps[2] == qs[2] && ps[3] == qs[3] && ps[4] == qs[4];
      assert ps[5] == qs[5] && ps[6] == qs[6] && ps[7] == qs[7] && ps[8] == qs[8];
    }
  }

  /**
   All listed fields of two pytorch jobs agree exactly when the jobs share a configuration and
   their fields hold equally many separators one by one; fields without separators always do.
   */
  lemma PytorchPreHashIff(a: Job, b: Job, digest: string -> string)
    requires a.backend.PyTorch? && b.backend.PyTorch?
    ensures SamePytorchFields(a, b)
       <==> PreHash(a, digest) == PreHash(b, digest) && Aligned(Parts(a, digest), Parts(b, digest))
    ensures GoodDigest(digest) && CleanFields(a, digest) && CleanFields(b, digest) ==>
              (SamePytorchFields(a, b) <==> PreHash(a, digest) == PreHash(b, digest))
  {
    PytorchFieldsIff(a, b, digest);
    AlignedJoinIff(Parts(a, digest), Parts(b, digest));
    if GoodDigest(digest) && CleanFields(a, digest) && CleanFields(b, digest) {
      PartsClean(a, digest);
      PartsClean(b, digest);
      CleanAligned(Parts(a, digest), Parts(b, digest));
    }
  }

  lemma CleanAligned(xs: seq<string>, ys: seq<string>)
    requires |xs| == |ys| && AllSeparatorFree(xs) && AllSeparatorFree(ys)
    ensures Aligned(xs, ys)
  {
    forall i | 0 <= i < |xs|
      ensures |Split(xs[i])| == |Split(ys[i])|
    {
      SplitPiece(xs[i], "");
      SplitPiece(ys[i], "");
    }
  }

  lemma Regroup(p: seq<string>, q: seq<string>, r: seq<string>)
    ensures p + (q + r) == (p + q) + r
  {
  }

  lemma {:induction false} PiecesConcat(xs: seq<string>, ys: seq<string>)
    requires xs != [] && ys != []
    ensures Pieces(xs + ys) == Pieces(xs) + Pieces(ys)
  {
    if |xs| == 1 {
      assert (xs + ys)[1..] == ys;
    } else {
      PiecesConcat(xs[1..], ys);
      assert (xs + ys)[1..] == xs[1..] + ys && (xs + ys)[0] == xs[0];
      Regroup(Split(xs[0]), Pieces(xs[1..]), Pieces(ys));
    }
  }

  /** The parts of a Spark job between the backend and the digest. */
  function SparkFields(job: Job): seq<string>
    requires job.spark.Some?
  {
    [job.machineType, job.spark.value.image, job.spark.value.mainFile]
  }

  lemma SparkPieces(job: Job, digest: string -> string)
    requires job.backend.Spark? && job.spark.Some? && GoodDigest(digest)
    ensures Pieces(Parts(job, digest))
         == ["spark"] + (Pieces(SparkFields(job)) + [digest(Join(job.spark.value.arguments))])
  {
    var hash := digest(Join(job.spark.value.arguments));
    var parts := Parts(job, digest);
    PiecesFirst(parts);
    assert parts[1..] == SparkFields(job) + [hash];
    PiecesConcat(SparkFields(job), [hash]);
    SplitPiece(hash, "");
  }

  /**
   Two Spark jobs share a configuration exactly when their leading fields fall into the same
   pieces and so do their argument lists; they agree in all of these exactly when, besides,
   the separators sit in the same fields and arguments.
   */
  lemma SparkPreHashIff(a: Job, b: Job, digest: string -> string)
    requires a.backend.Spark? && b.backend.Spark? && a.spark.Some? && b.spark.Some? && GoodDigest(digest)
    ensures PreHash(a, digest) == PreHash(b, digest)
       <==> && Pieces(SparkFields(a)) == Pieces(SparkFields(b))
            && Pieces(a.spark.value.arguments) == Pieces(b.spark.value.arguments)
    ensures a.machineType == b.machineType && a.spark == b.spark
       <==> && PreHash(a, digest) == PreHash(b, digest) && Aligned(SparkFields(a), SparkFields(b))
            && Aligned(a.spark.value.arguments, b.spark.value.arguments)
  {
    var xs, ys := a.spark.value.arguments, b.spark.value.arguments;
    PreHashIff(a, b, digest);
    SparkPieces(a, digest);
    SparkPieces(b, digest);
    MiddleAgrees("spark", Pieces(SparkFields(a)), digest(Join(xs)), Pieces(SparkFields(b)), digest(Join(ys)));
    JoinIff(xs, ys);
    JoinIff(SparkFields(a), SparkFields(b));
    AlignedJoinIff(xs, ys);
    AlignedJoinIff(SparkFields(a), SparkFields(b));
    SparkFieldsIff(a, b);
  }

  lemma SparkFieldsIff(a: Job, b: Job)
    requires a.spark.Some? && b.spark.Some?
    ensures a.machineType == b.machineType && a.spark == b.spark
       <==> SparkFields(a) == SparkFields(b) && a.spark.value.arguments == b.spark.value.arguments
  {
    var xs, ys := SparkFields(a), SparkFields(b);
    if xs == ys {
      assert xs[0] == ys[0] && xs[1] == ys[1] && xs[2] == ys[2];
    }
  }

  lemma MiddleAgrees(first: string, m: seq<string>, x: string, n: seq<string>, y: string)
    ensures [first] + (m + [x]) == [first] + (n + [y]) <==> m == n && x == y
  {
    if [first] + (m + [x]) == [first] + (n + [y]) {
      PrefixesAgree([first], [first], m + [x], n + [y]);
      assert |m| == |n|;
      PrefixesAgree(m, n, [x], [y]);
      assert [x][0] == [y][0];
    }
  }

  /** Different argument lists, and different fields, that collide; and lists with separators that do not. */
  lemma Collisions()
    ensures Join(["a", "b"]) == Join(["a|b"]) && Join([]) == Join([""])
    ensures Join(["a|b"]) != Join(["c|d"])
    ensures Join(["n|m", "x"]) == Join(["n", "m|x"])
  {
    assert Join(["b"]) == "b" && Join(["x"]) == "x" && Join(["m|x"]) == "m|x";
    assert "a" + [SEPARATOR] + "b" == "a|b";
    assert "a|b"[0] != "c|d"[0];
    assert "n|m" + [SEPARATOR] + "x" == "n|m|x" == "n" + [SEPARATOR] + "m|x";
  }

  /** Spark jobs without a section, and plain jobs, are told apart by their machine type alone. */
  lemma BarePreHash(job: Job, digest: string -> string)
    ensures job.backend.Spark? && job.spark.None? ==> PreHash(job, digest) == "spark|" + job.machineType + "|||"
    ensures job.backend.PlainJob? ==> PreHash(job, digest) == "job|" + job.machineType
  {
    if job.backend.Spark? && job.spark.None? {
      assert Parts(job, digest) == ["spark", job.machineType, "", "", ""];
      JoinHead("", ["", ""]);
      JoinHead("", [""]);
      JoinHead(job.machineType, ["", "", ""]);
      JoinHead("spark", [job.machineType, "", "", ""]);
      assert Join([""]) == "";
    } else if job.backend.PlainJob? {
      assert Parts(job, digest) == ["job", job.machineType];
      JoinHead("job", [job.machineType]);
    }
  }

  lemma JoinHead(p: string, rest: seq<string>)
    requires rest != []
    ensures Join([p] + rest) == p + [SEPARATOR] + Join(rest)
  {
  }

  // ----- the machine the job runs on

  function EffectiveMachineType(job: Job, cpuDefault: string, gpuDefault: string): string {
    if job.machineType != "" then job.machineType
    else if UsesGPU(job) then gpuDefault
    else cpuDefault
  }

  predicate UsesGPU(job: Job) {
    || job.hardwareType.GPU?
    || (job.hardwareType.AnyHardware? && job.backend.PyTorch? && job.hasPytorchSpec && job.gpuLimit)
  }

  /** The job asks for a GPU by the limits of its pytorch spec. */
  predicate LimitsAskForGPU(job: Job) {
    job.backend.PyTorch? && job.hasPytorchSpec && job.gpuLimit
  }

  /** A machine type that is given decides, then a hardware type that is given, and the limits only after these. */
  lemma MachineDecidedBy(job: Job, cpuDefault: string, gpuDefault: string)
    ensures var machine := EffectiveMachineType(job, cpuDefault, gpuDefault);
            && (job.machineType != "" ==> machine == job.machineType)
            && (job.machineType == "" && job.hardwareType.GPU? ==> machine == gpuDefault)
            && (job.machineType == "" && job.hardwareType.CPU? ==> machine == cpuDefault)
            && (job.machineType == "" && job.hardwareType.AnyHardware? ==>
                  machine == if LimitsAskForGPU(job) then gpuDefault else cpuDefault)
  {
  }

  /** Jobs of one configuration name one machine type exactly if their types hold equally many separators. */
  lemma SameMachineField(a: Job, b: Job, digest: string -> string)
    requires PreHash(a, digest) == PreHash(b, digest)
    ensures a.machineType == b.machineType <==> |Split(a.machineType)| == |Split(b.machineType)|
  {
    if |Split(a.machineType)| == |Split(b.machineType)| {
      var ps, qs := Parts(a, digest), Parts(b, digest);
      BackendsKeptApart(a, b, digest);
      JoinIff(ps, qs);
      PiecesFirst(ps);
      PiecesFirst(qs);
      PrefixesAgree([ps[0]], [qs[0]], Pieces(ps[1..]), Pieces(qs[1..]));
      if |ps| > 2 {
        PrefixesAgree(Split(ps[1]), Split(qs[1]), Pieces(ps[1..][1..]), Pieces(qs[1..][1..]));
      }
      JoinSplit(a.machineType);
      JoinSplit(b.machineType);
    }
  }

  /** The type that a job gets when it names none. */
  function DefaultMachineType(job: Job, cpuDefault: string, gpuDefault: string): string {
    if UsesGPU(job) then gpuDefault else cpuDefault
  }

  /**
   Jobs of one configuration run on the same machine type exactly in these cases: their types
   hold equally many separators, and are given, or the defaults agree, or both or neither of the
   jobs ask for a GPU; or one of them names none, and the other the default of the first.
   */
  lemma SameConfigurationSameMachineIff(a: Job, b: Job, digest: string -> string,
                                        cpuDefault: string, gpuDefault: string)
    requires PreHash(a, digest) == PreHash(b, digest)
    ensures EffectiveMachineType(a, cpuDefault, gpuDefault) == EffectiveMachineType(b, cpuDefault, gpuDefault)
       <==> if |Split(a.machineType)| == |Split(b.machineType)|
            then !(a.machineType == "" && cpuDefault != gpuDefault && UsesGPU(a) != UsesGPU(b))
            else || (a.machineType == "" && b.machineType == DefaultMachineType(a, cpuDefault, gpuDefault))
                 || (b.machineType == "" && a.machineType == DefaultMachineType(b, cpuDefault, gpuDefault))
  {
    SameMachineField(a, b, digest);
  }

  /** Two pytorch jobs of one configuration that the defaults put on different machines. */
  lemma SharedHistoryAcrossMachines(digest: string -> string) returns (a: Job, b: Job)
    ensures PreHash(a, digest) == PreHash(b, digest)
    ensures EffectiveMachineType(a, "n2-standard-8", "g2-standard-8") == "n2-standard-8"
    ensures EffectiveMachineType(b, "n2-standard-8", "g2-standard-8") == "g2-standard-8"
  {
    a := Job(PyTorch, "", AnyHardware, false, true, "model", "data", "train", Training(8, 1, 1, ""), None);
    b := a.(gpuLimit := true);
  }
}
