/**
 * The KPI screen's table of last year's reference files per department and
 * the file-picked handler that feeds the analyzer.
 */
module KpiAnalysisScreen {
  import opened Wrappers
  import opened Text
  import opened Wire
  import KpiAnalyzer

  /** The departments offered, in display order. */
  const Departments: seq<string> :=
    ["Marketing", "Sales", "Tech", "Product", "Finance", "Operations", "Customer Support"]

  /** Last year's reference file per lower-case department name. */
  const HistoricalFiles: map<string, string> := map[
    "marketing" := "file-TJYfXNfMKrPAttAKrUjmTk",
    "sales" := "file-N5tC9anVXgmgq41jDcnCjq",
    "tech" := "file-NPaZXz5EuToA2Pw24C1Ms5",
    "product" := "file-VRMzU8QMTasBxcyCPtDHZt",
    "finance" := "file-E7MQvXTgk1bRy4SBcttuwx",
    "operations" := "file-8KhZbBwixYyBcm5VpLBY8g",
    "customer support" := "file-UZttM4zsKqoVGiTNMPnW5J"]

  /** `getHistoricalFileId`: the table entry, null for any other key. */
  function GetHistoricalFileId(department: string): (r: Option<string>)
    ensures r.Some? <==> department in HistoricalFiles
    ensures r.Some? ==> r.value == HistoricalFiles[department]
  {
    if department in HistoricalFiles then Some(HistoricalFiles[department]) else None
  }

  /** The department names as `lowercase()` turns them into table keys. */
  const DepartmentKeys: seq<string> :=
    ["marketing", "sales", "tech", "product", "finance", "operations", "customer support"]

  lemma LowersTo(s: string, t: string)
    requires |s| == |t| && forall i :: 0 <= i < |s| ==> LowerChar(s[i]) == t[i]
    ensures Lower(s) == t
  {
  }

  /** Lower-casing the i-th offered department gives the i-th key. */
  lemma DepartmentKey(i: nat)
    requires i < |Departments|
    ensures Lower(Departments[i]) == DepartmentKeys[i]
  {
    LowersTo(Departments[i], DepartmentKeys[i]);
  }

  /** The table's keys are exactly the listed keys. */
  lemma TableKeys()
    ensures HistoricalFiles.Keys == set i | 0 <= i < |DepartmentKeys| :: DepartmentKeys[i]
  {
    var listed := set i | 0 <= i < |DepartmentKeys| :: DepartmentKeys[i];
    assert DepartmentKeys[0] in listed && DepartmentKeys[1] in listed && DepartmentKeys[2] in listed
        && DepartmentKeys[3] in listed && DepartmentKeys[4] in listed && DepartmentKeys[5] in listed
        && DepartmentKeys[6] in listed;
  }

  /** The seven keys are distinct, so the table has seven entries. */
  lemma TableSize()
    ensures |HistoricalFiles.Keys| == 7
  {
  }

  /** The table has exactly the seven offered departments, lower-cased, as keys. */
  lemma TableKeysAreLoweredDepartments()
    ensures |Departments| == 7 && |HistoricalFiles.Keys| == 7
    ensures HistoricalFiles.Keys == set i | 0 <= i < |Departments| :: Lower(Departments[i])
    ensures forall k :: k in HistoricalFiles ==> IsLower(k)
  {
    forall i | 0 <= i < |Departments| ensures Lower(Departments[i]) == DepartmentKeys[i] {
      DepartmentKey(i);
    }
    TableKeys();
    TableSize();
    forall k | k in HistoricalFiles ensures IsLower(k) {
      var i :| 0 <= i < |DepartmentKeys| && DepartmentKeys[i] == k;
      LowerIsLowerCase(Departments[i]);
    }
  }

  /** Every offered department, lower-cased, has a reference file. */
  lemma EveryDepartmentHasHistory(i: nat)
    requires i < |Departments|
    ensures GetHistoricalFileId(Lower(Departments[i])).Some?
  {
    TableKeysAreLoweredDepartments();
  }

  /** No two departments share a reference file. */
  lemma HistoricalIdsDistinct(a: string, b: string)
    requires a in HistoricalFiles && b in HistoricalFiles && a != b
    ensures HistoricalFiles[a] != HistoricalFiles[b]
  {
  }

  /** The key is the lower-cased name: the display name itself finds nothing. */
  lemma DisplayNameIsNotAKey()
    ensures GetHistoricalFileId("Marketing").None?
    ensures GetHistoricalFileId(Lower("Marketing")) == Some("file-TJYfXNfMKrPAttAKrUjmTk")
  {
    MarketingKey();
  }

  /** "Marketing" lower-cases to its table key. */
  lemma MarketingKey()
    ensures Lower("Marketing") == "marketing"
  {
    LowersTo("Marketing", "marketing");
  }

  /** The screen's state around one analysis. */
  datatype KpiView = KpiView(selectedDepartment: string, predictionText: string, isLoading: bool)

  /**
   * The file-picked handler run to completion: nothing happens when the
   * picked file could not be copied; otherwise the analyzer runs with the
   * department as displayed and the reference file found under its
   * lower-cased name, and its text becomes the prediction.
   */
  function OnFilePicked(v: KpiView, tempFileName: Option<string>, assistantId: string, o: KpiAnalyzer.KpiOutcomes): (r: KpiView)
    ensures tempFileName.None? ==> r == v
    ensures tempFileName.Some? ==>
      && r.selectedDepartment == v.selectedDepartment && !r.isLoading
      && r.predictionText == KpiAnalyzer.AnalyzeKpi(tempFileName.value, assistantId, v.selectedDepartment,
                                                    GetHistoricalFileId(Lower(v.selectedDepartment)), o).result
  {
    match tempFileName
    case None => v
    case Some(name) =>
      var result := KpiAnalyzer.AnalyzeKpi(name, assistantId, v.selectedDepartment,
                                           GetHistoricalFileId(Lower(v.selectedDepartment)), o).result;
      v.(predictionText := result, isLoading := false)
  }

  /**
   * For an offered department the run reads two files, the upload and the
   * department's reference file; for a department outside the table it reads
   * only the upload.
   */
  lemma RunFilesForDepartment(department: string, fileId: string)
    ensures Lower(department) in HistoricalFiles ==>
      KpiAnalyzer.RunFileIds(fileId, GetHistoricalFileId(Lower(department)))
        == [fileId, HistoricalFiles[Lower(department)]]
    ensures Lower(department) !in HistoricalFiles ==>
      KpiAnalyzer.RunFileIds(fileId, GetHistoricalFileId(Lower(department))) == [fileId]
  {
  }
}
