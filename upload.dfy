/** The upload handler: the accept/reject decision, the paths a conversion
    is started with, and a sequential run of one upload followed by its
    conversion against the task map. */
module Upload {
  import opened Common
  import opened FileNames
  import opened Conversion

  /** The JSON answer of the upload endpoint with its HTTP status. */
  datatype Response =
    | Accepted(taskId: TaskId, filename: string)
    | Rejected(code: int, error: string)

  const NoFileSelected: string := "Nenhum arquivo selecionado"
  const TypeNotAllowed: string := "Tipo de arquivo não permitido"

  /** The upload endpoint. `file` is the name of the `file` form field, None
      when the field is missing; `freshId` is the generated task id; and
      `acceptFailure` is the exception the accepted branch raises, if any:
      saving the upload, starting the conversion thread, or any other step
      of that branch. */
  function UploadFile(file: Option<string>, freshId: TaskId, acceptFailure: Option<string>): (resp: Response)
    ensures resp.Rejected? && resp.code == 400 <==>
      file.None? || file.value == "" || !AllowedFile(file.value)
    ensures resp.Rejected? && resp.code == 400 ==>
      resp.error == (if file.None? || file.value == "" then NoFileSelected else TypeNotAllowed)
    ensures resp.Accepted? <==> file.Some? && AllowedFile(file.value) && acceptFailure.None?
    ensures resp.Rejected? && resp.code == 500 <==>
      file.Some? && AllowedFile(file.value) && acceptFailure.Some?
    ensures resp.Rejected? && resp.code == 500 ==> resp.error == "Erro interno: " + acceptFailure.value
    ensures resp.Accepted? ==> resp.taskId == freshId && resp.filename == OutputName(file.value)
  {
    if file.None? then Rejected(400, NoFileSelected)
    else if file.value == "" then Rejected(400, NoFileSelected)
    else if AllowedFile(file.value) then
      match acceptFailure
      case Some(e) => Rejected(500, "Erro interno: " + e)
      case None => Accepted(freshId, OutputName(file.value))
    else Rejected(400, TypeNotAllowed)
  }

  /** Where an accepted upload is saved. */
  function InputPath(name: string): string
  {
    Join(UploadFolder, name)
  }

  /** Where its conversion writes. */
  function OutputPath(name: string): string
  {
    Join(UploadFolder, OutputName(name))
  }

  /** The input and output paths of an accepted upload coincide exactly
      when its name holds no lower-case ".xlsb"; then the conversion
      writes over the file it reads. */
  lemma SamePathIff(name: string)
    requires AllowedFile(name)
    ensures InputPath(name) == OutputPath(name) <==> !Occurs(name, ".xlsb")
  {
    JoinInjective(name, OutputName(name));
    OutputNameUnchangedIff(name);
  }

  /** An upload named "A.XLSB" is accepted and converted onto itself. */
  lemma UpperCaseUploadOverwritesInput(freshId: TaskId)
    ensures UploadFile(Some("A.XLSB"), freshId, None) == Accepted(freshId, "A.XLSB")
    ensures InputPath("A.XLSB") == OutputPath("A.XLSB")
  {
    UpperCaseExtensionKeepsName();
  }

  /** Replacing ".xlsb" never introduces a '/'. */
  lemma OutputNameKeepsSeparatorsOut(name: string)
    requires '/' !in name
    ensures '/' !in OutputName(name)
  {
    var r := OutputName(name);
    OutputNameChangesOnlyExtensionLetter(name);
    forall k | 0 <= k < |r| ensures r[k] != '/' {
      assert r[k] == name[k] || r[k] == 'x';
    }
  }

  /** The name the upload endpoint answers with is the file name a
      successful conversion of that upload stores, for a name without
      path separators. */
  lemma ReportedNameIsConvertedName(name: string, freshId: TaskId, wb: Workbook, start: Timestamp, end: Timestamp)
    requires AllowedFile(name) && '/' !in name
    requires FirstFailure(InputPath(name), wb) == None
    ensures var resp := UploadFile(Some(name), freshId, None);
      var w := Writes(InputPath(name), OutputPath(name), wb, start, end);
      resp.Accepted? && Last(w).filename == Some(resp.filename)
  {
    OutputNameKeepsSeparatorsOut(name);
    BasenameOfJoin(OutputName(name));
    WritesOutcome(InputPath(name), OutputPath(name), wb, start, end);
  }

  /** One upload handled to its end, with the conversion thread it starts
      run to completion before anything else touches the map. `early` is
      what a poll of the new id answers before the conversion's first
      step: the task is not stored until the conversion stores it. */
  method UploadAndConvert(store: TaskStore, file: Option<string>, freshId: TaskId, acceptFailure: Option<string>,
                          wb: Workbook, start: Timestamp, end: Timestamp)
      returns (resp: Response, early: Reply)
    requires freshId !in store.tasks
    modifies store
    ensures resp == UploadFile(file, freshId, acceptFailure)
    ensures early == NotFound
    ensures resp.Rejected? ==> store.tasks == old(store.tasks) && store.history == old(store.history)
    ensures resp.Accepted? ==>
      var w := Writes(InputPath(file.value), OutputPath(file.value), wb, start, end);
      store.tasks == old(store.tasks)[freshId := Last(w)] &&
      store.history == old(store.history)[freshId := old(store.Past(freshId)) + w]
  {
    resp := UploadFile(file, freshId, acceptFailure);
    early := store.GetProgress(freshId);
    if resp.Accepted? {
      store.Convert(InputPath(file.value), OutputPath(file.value), freshId, wb, start, end);
    }
  }
}
