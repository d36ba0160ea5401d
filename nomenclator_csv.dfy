// The conversion run of the `nomenclator_csv` binary (src/bin/nomenclator_csv.rs):
// the table of dictionary files, how each conversion job ends, how the
// results are counted and when the run as a whole fails. Downloading,
// scheduling and printing are left out: whether an input file exists and how
// its parse task ended are inputs.

module NomenclatorCsv {
  import opened Wrappers
  import Catalog
  import Csv
  import Prescription

  /** The catalog converter a mapping entry runs. */
  datatype Converter =
    | ParseAtc
    | ParseDcp
    | ParseDcpf
    | ParseDcsa
    | ParseEnvases
    | ParseExcipientes
    | ParseFormaFarmaceutica
    | ParseFormaFarmaceuticaSimplificada
    | ParseLaboratorio
    | ParsePrincipioActivo
    | ParseSituacionRegistro
    | ParseUnidadContenido
    | ParseViaAdministracion
  {
    /** Position of the converter in the mapping table. */
    function Ordinal(): nat {
      match this
      case ParseAtc => 0
      case ParseDcp => 1
      case ParseDcpf => 2
      case ParseDcsa => 3
      case ParseEnvases => 4
      case ParseExcipientes => 5
      case ParseFormaFarmaceutica => 6
      case ParseFormaFarmaceuticaSimplificada => 7
      case ParseLaboratorio => 8
      case ParsePrincipioActivo => 9
      case ParseSituacionRegistro => 10
      case ParseUnidadContenido => 11
      case ParseViaAdministracion => 12
    }
  }

  /** One entry of the mapping table: input XML name, output CSV name, converter. */
  datatype Job = Job(xmlName: string, csvName: string, converter: Converter)

  /** The dictionary files converted one CSV each; the prescription file is handled apart. */
  const Mapping: seq<Job> := [
    Job("DICCIONARIO_ATC.xml", "atc.csv", ParseAtc),
    Job("DICCIONARIO_DCP.xml", "dcp.csv", ParseDcp),
    Job("DICCIONARIO_DCPF.xml", "dcpf.csv", ParseDcpf),
    Job("DICCIONARIO_DCSA.xml", "dcsa.csv", ParseDcsa),
    Job("DICCIONARIO_ENVASES.xml", "envases.csv", ParseEnvases),
    Job("DICCIONARIO_EXCIPIENTES_DECL_OBLIGATORIA.xml", "excipientes.csv", ParseExcipientes),
    Job("DICCIONARIO_FORMA_FARMACEUTICA.xml", "forma_farmaceutica.csv", ParseFormaFarmaceutica),
    Job("DICCIONARIO_FORMA_FARMACEUTICA_SIMPLIFICADAS.xml", "forma_farmaceutica_simplificada.csv", ParseFormaFarmaceuticaSimplificada),
    Job("DICCIONARIO_LABORATORIOS.xml", "laboratorios.csv", ParseLaboratorio),
    Job("DICCIONARIO_PRINCIPIOS_ACTIVOS.xml", "principios_activos.csv", ParsePrincipioActivo),
    Job("DICCIONARIO_SITUACION_REGISTRO.xml", "situacion_registro.csv", ParseSituacionRegistro),
    Job("DICCIONARIO_UNIDAD_CONTENIDO.xml", "unidad_contenido.csv", ParseUnidadContenido),
    Job("DICCIONARIO_VIAS_ADMINISTRACION.xml", "vias_administracion.csv", ParseViaAdministracion)
  ]

  /** No two entries read the same XML file. */
  predicate DistinctInputs(jobs: seq<Job>) {
    forall i, j :: 0 <= i < j < |jobs| ==> jobs[i].xmlName != jobs[j].xmlName
  }

  /** No two entries write the same CSV file. */
  predicate DistinctOutputs(jobs: seq<Job>) {
    forall i, j :: 0 <= i < j < |jobs| ==> jobs[i].csvName != jobs[j].csvName
  }

  /** No two entries run the same converter. */
  predicate DistinctConverters(jobs: seq<Job>) {
    forall i, j :: 0 <= i < j < |jobs| ==> jobs[i].converter != jobs[j].converter
  }

  lemma InputsDistinct()
    ensures DistinctInputs(Mapping)
  {
  }

  lemma OutputsDistinct()
    ensures DistinctOutputs(Mapping)
  {
  }

  lemma ConvertersDistinct()
    ensures DistinctConverters(Mapping)
  {
    forall i | 0 <= i < |Mapping| ensures Mapping[i].converter.Ordinal() == i {
    }
  }

  /** Thirteen entries, pairwise distinct in input, output and converter. */
  lemma MappingDistinct()
    ensures |Mapping| == 13
    ensures DistinctInputs(Mapping) && DistinctOutputs(Mapping) && DistinctConverters(Mapping)
  {
    InputsDistinct();
    OutputsDistinct();
    ConvertersDistinct();
  }

  /** Concurrency: the requested level, or the number of CPU cores when none is given. */
  function Concurrency(requested: Option<nat>, cores: nat): (n: nat)
    ensures requested.Some? ==> n == requested.value
    ensures requested.None? ==> n == cores
  {
    requested.GetOr(cores)
  }

  /** How the blocking parse task of a job ended. */
  datatype TaskOutcome =
    | Finished(parsed: Result<(), string>)   // the spawned conversion ran; the converter's own result
    | JoinError(message: string)              // the spawned conversion could not be joined

  /** The spawned conversion ran and its converter returned `Ok`. */
  predicate Converted(outcome: TaskOutcome) {
    outcome.Finished? && outcome.parsed.Success?
  }

  /** A job that did not fail: its file names and whether it converted anything. */
  datatype Completion = Completion(xmlName: string, csvName: string, completed: bool)

  type JobResult = Result<Completion, string>

  /**
   * One job: skipped (`completed == false`) when its XML file is missing;
   * otherwise completed when the converter succeeded, and an error when the
   * converter failed or the spawned conversion could not be joined.
   */
  function RunJob(job: Job, present: bool, outcome: TaskOutcome): (r: JobResult)
    ensures !present ==> r == Success(Completion(job.xmlName, job.csvName, false))
    ensures present && Converted(outcome) ==> r == Success(Completion(job.xmlName, job.csvName, true))
    ensures r.Failure? <==> present && !Converted(outcome)
    ensures present && outcome.Finished? && outcome.parsed.Failure? ==> r == Failure(outcome.parsed.error)
    ensures present && outcome.JoinError? ==> r == Failure("Task join error: " + outcome.message)
  {
    if !present then Success(Completion(job.xmlName, job.csvName, false))
    else
      match outcome
      case Finished(Success(_)) => Success(Completion(job.xmlName, job.csvName, true))
      case Finished(Failure(e)) => Failure(e)
      case JoinError(m) => Failure("Task join error: " + m)
  }

  /** A missing file is skipped whatever its parse task would have done: the converter never runs. */
  lemma MissingFileIgnoresConverter(job: Job, o1: TaskOutcome, o2: TaskOutcome)
    ensures RunJob(job, false, o1) == RunJob(job, false, o2)
    ensures RunJob(job, false, o1).Success?
  {
  }

  /** Results that are `Ok`: completed jobs and skipped ones alike. */
  function Successful(results: seq<JobResult>): nat {
    if results == [] then 0
    else Successful(results[..|results| - 1]) + (if results[|results| - 1].Success? then 1 else 0)
  }

  /** Results that are `Err`. */
  function Failed(results: seq<JobResult>): nat {
    if results == [] then 0
    else Failed(results[..|results| - 1]) + (if results[|results| - 1].Failure? then 1 else 0)
  }

  /** Every result is counted once, as successful or as failed. */
  lemma {:induction false} CountsPartition(results: seq<JobResult>)
    ensures Successful(results) + Failed(results) == |results|
  {
    if results != [] {
      CountsPartition(results[..|results| - 1]);
    }
  }

  /** Some job failed exactly when the failure count is positive. */
  lemma {:induction false} FailedPositive(results: seq<JobResult>)
    ensures Failed(results) > 0 <==> exists i :: 0 <= i < |results| && results[i].Failure?
  {
    if results != [] {
      var init := results[..|results| - 1];
      FailedPositive(init);
      if exists i :: 0 <= i < |init| && init[i].Failure? {
        var i :| 0 <= i < |init| && init[i].Failure?;
        assert results[i] == init[i];
      }
      if exists i :: 0 <= i < |results| && results[i].Failure? {
        var i :| 0 <= i < |results| && results[i].Failure?;
        if i < |init| {
          assert init[i] == results[i];
        }
      }
    }
  }

  lemma {:induction false} SuccessfulAppend(a: seq<JobResult>, b: seq<JobResult>)
    ensures Successful(a + b) == Successful(a) + Successful(b)
  {
    if b == [] {
      assert a + b == a;
    } else {
      SuccessfulAppend(a, b[..|b| - 1]);
      assert (a + b)[..|a + b| - 1] == a + b[..|b| - 1];
    }
  }

  /**
   * The jobs finish in any order; the counts do not depend on it: results
   * that are a permutation of each other give the same counts.
   */
  lemma {:induction false} CountsOrderFree(a: seq<JobResult>, b: seq<JobResult>)
    requires multiset(a) == multiset(b)
    ensures Successful(a) == Successful(b) && Failed(a) == Failed(b)
  {
    assert |a| == |multiset(a)| == |b|;
    if a == [] {
      assert b == [];
    } else {
      var init, x := a[..|a| - 1], a[|a| - 1];
      assert a == init + [x];
      assert x in multiset(b);
      var k :| 0 <= k < |b| && b[k] == x;
      var rest := b[..k] + b[k + 1..];
      RemoveOne(a, b, k);
      CountsOrderFree(init, rest);
      CountRemoved(b, k);
      CountsPartition(a);
      CountsPartition(b);
      CountsPartition(init);
      CountsPartition(rest);
    }
  }

  /** Taking the last of `a` and the same result at position k of `b` leaves equal multisets. */
  lemma RemoveOne(a: seq<JobResult>, b: seq<JobResult>, k: nat)
    requires multiset(a) == multiset(b) && a != [] && k < |b| && b[k] == a[|a| - 1]
    ensures multiset(a[..|a| - 1]) == multiset(b[..k] + b[k + 1..])
  {
    var init, x, rest := a[..|a| - 1], a[|a| - 1], b[..k] + b[k + 1..];
    assert a == init + [x];
    assert b == b[..k] + [x] + b[k + 1..];
    assert multiset(a) == multiset(init) + multiset{x};
    assert multiset(b) == multiset(b[..k]) + multiset{x} + multiset(b[k + 1..]);
    assert multiset(rest) == multiset(b[..k]) + multiset(b[k + 1..]);
    forall y ensures multiset(init)[y] == multiset(rest)[y] {
      assert multiset(a)[y] == multiset(b)[y];
    }
  }

  /** Removing the result at position k takes its one count away. */
  lemma CountRemoved(b: seq<JobResult>, k: nat)
    requires k < |b|
    ensures Successful(b) == Successful(b[..k] + b[k + 1..]) + (if b[k].Success? then 1 else 0)
  {
    var left, x, right := b[..k], b[k], b[k + 1..];
    assert b[..k + 1] == left + [x];
    assert b == b[..k + 1] + right;
    SuccessfulAppend(b[..k + 1], right);
    SuccessfulAppend(left, [x]);
    SuccessfulAppend(left, right);
    SuccessfulSingle(x);
  }

  lemma SuccessfulSingle(x: JobResult)
    ensures Successful([x]) == if x.Success? then 1 else 0
  {
    assert [x][..0] == [];
  }

  /**
   * The text an `anyhow` error shows: an I/O error's own message, or for a
   * failed deserialisation the outermost context.
   */
  function ErrorText(e: Catalog.ConvertError): string {
    match e
    case Io(message) => message
    case Deserialize(context, _) => context
  }

  /** A converter's result as the job loop sees it: `Ok(())`, or the error as text. */
  function Reported<T>(converted: Result<T, Catalog.ConvertError>): (r: Result<(), string>)
    ensures r.Success? <==> converted.Success?
    ensures converted.Failure? ==> r.error == ErrorText(converted.error)
  {
    match converted
    case Success(_) => Success(())
    case Failure(e) => Failure(ErrorText(e))
  }

  /**
   * A present dictionary file whose conversion ran: the job fails exactly when
   * the source gave no records, with the I/O message or the catalog's context
   * as its error.
   */
  lemma CatalogJob<R>(job: Job, src: Catalog.Source<R>, context: string, header: Csv.Row,
                      toRow: R -> Csv.Row, transform: R -> R)
    ensures var r := RunJob(job, true, Finished(Reported(Catalog.CatalogCsv(src, context, header, toRow, transform))));
      && (r.Success? <==> src.Parsed?)
      && (src.Parsed? ==> r == Success(Completion(job.xmlName, job.csvName, true)))
      && (src.Unreadable? ==> r == Failure(src.ioError))
      && (src.Malformed? ==> r == Failure(context))
  {
  }

  /** The prescription step: success when `Prescripcion.xml` is missing, otherwise the decomposer's result. */
  function PrescriptionStep(present: bool, decomposed: Result<(), string>): (r: Result<(), string>)
    ensures !present ==> r.Success?
    ensures present ==> r == decomposed
  {
    if present then decomposed else Success(())
  }

  /**
   * A present `Prescripcion.xml`: the step fails exactly when the file cannot
   * be read, is malformed, or holds a record that does not decode.
   */
  lemma PrescriptionJob(src: Catalog.Source<Prescription.RawPrescription>)
    ensures var r := PrescriptionStep(true, Reported(Prescription.DecomposeCsv(src)));
      && (r.Success? <==> src.Parsed? && Prescription.DecodeAll(src.records).Success?)
      && (src.Unreadable? ==> r == Failure(src.ioError))
      && (src.Malformed? ==> r == Failure(Prescription.PrescriptionContext))
      && (src.Parsed? && Prescription.DecodeAll(src.records).Failure? ==> r == Failure(Prescription.PrescriptionContext))
  {
  }

  /** The run's result: an error when any job failed or the prescription step failed. */
  function RunResult(results: seq<JobResult>, prescription: Result<(), string>): (r: Result<(), string>)
    ensures r.Failure? ==> r.error == "Some files failed to parse"
  {
    if Failed(results) > 0 || prescription.Failure? then Failure("Some files failed to parse") else Success(())
  }

  /** The results of the jobs in mapping order, given which files exist and how each task ended. */
  function JobResults(jobs: seq<Job>, present: seq<bool>, outcomes: seq<TaskOutcome>): (rs: seq<JobResult>)
    requires |present| == |jobs| && |outcomes| == |jobs|
    ensures |rs| == |jobs|
    ensures forall i :: 0 <= i < |jobs| ==> rs[i] == RunJob(jobs[i], present[i], outcomes[i])
  {
    if jobs == [] then []
    else
      var n := |jobs| - 1;
      JobResults(jobs[..n], present[..n], outcomes[..n]) + [RunJob(jobs[n], present[n], outcomes[n])]
  }

  /**
   * The whole run, for results collected in any order: it fails exactly when
   * some present file failed to convert or the prescription file is present
   * and failed to decompose.
   */
  lemma RunFailsIff(present: seq<bool>, outcomes: seq<TaskOutcome>, collected: seq<JobResult>,
                    prescriptionPresent: bool, decomposed: Result<(), string>)
    requires |present| == |Mapping| && |outcomes| == |Mapping|
    requires multiset(collected) == multiset(JobResults(Mapping, present, outcomes))
    ensures RunResult(collected, PrescriptionStep(prescriptionPresent, decomposed)).Failure?
      <==> ((exists i :: 0 <= i < |Mapping| && present[i] && !Converted(outcomes[i]))
            || (prescriptionPresent && decomposed.Failure?))
  {
    var rs := JobResults(Mapping, present, outcomes);
    CountsOrderFree(collected, rs);
    FailedPositive(rs);
    if exists i :: 0 <= i < |Mapping| && present[i] && !Converted(outcomes[i]) {
      var i :| 0 <= i < |Mapping| && present[i] && !Converted(outcomes[i]);
      assert rs[i].Failure?;
    }
  }
}
