/** The form state behind the document generator: twenty text fields and
    the list of design files the user has attached, with the transitions
    the form's input handlers perform. A file is modelled by its name. */
module HldForm {

  /** The text fields of the record, one per form input. */
  datatype Field =
    | SectionId | SectionName | Author | Reviewer
    | CreateDate | UpdateDate | ApprovalDate
    | ChangeOverview | Objective
    | Assumptions | Constraints | Dependencies | Risk
    | SystemArchDetails | ComponentDetails
    | Requirements | Design | Impact | OutputPayload
    | Test1

  datatype HldData = HldData(
    sectionId: string,
    sectionName: string,
    author: string,
    reviewer: string,
    createDate: string,
    updateDate: string,
    approvalDate: string,
    changeOverview: string,
    objective: string,
    assumptions: string,
    constraints: string,
    dependencies: string,
    risk: string,
    systemArchDetails: string,
    componentDetails: string,
    requirements: string,
    design: string,
    impact: string,
    outputPayload: string,
    test1: string,
    designFiles: seq<string>)

  /** The value of one text field. */
  function Get(d: HldData, f: Field): string {
    match f
    case SectionId => d.sectionId
    case SectionName => d.sectionName
    case Author => d.author
    case Reviewer => d.reviewer
    case CreateDate => d.createDate
    case UpdateDate => d.updateDate
    case ApprovalDate => d.approvalDate
    case ChangeOverview => d.changeOverview
    case Objective => d.objective
    case Assumptions => d.assumptions
    case Constraints => d.constraints
    case Dependencies => d.dependencies
    case Risk => d.risk
    case SystemArchDetails => d.systemArchDetails
    case ComponentDetails => d.componentDetails
    case Requirements => d.requirements
    case Design => d.design
    case Impact => d.impact
    case OutputPayload => d.outputPayload
    case Test1 => d.test1
  }

  /** Two records agree on every text field. */
  predicate SameText(a: HldData, b: HldData) {
    forall f :: Get(a, f) == Get(b, f)
  }

  /** The state the form starts in. */
  function Initial(): (d: HldData)
    ensures forall f :: Get(d, f) == ""
    ensures d.designFiles == []
  {
    HldData("", "", "", "", "", "", "", "", "", "", "", "", "", "", "", "", "", "", "", "", [])
  }

  /** An edit of one input: field `f` becomes `v`. */
  function SetField(d: HldData, f: Field, v: string): (r: HldData)
    ensures Get(r, f) == v
    ensures forall g :: g != f ==> Get(r, g) == Get(d, g)
    ensures r.designFiles == d.designFiles
  {
    match f
    case SectionId => d.(sectionId := v)
    case SectionName => d.(sectionName := v)
    case Author => d.(author := v)
    case Reviewer => d.(reviewer := v)
    case CreateDate => d.(createDate := v)
    case UpdateDate => d.(updateDate := v)
    case ApprovalDate => d.(approvalDate := v)
    case ChangeOverview => d.(changeOverview := v)
    case Objective => d.(objective := v)
    case Assumptions => d.(assumptions := v)
    case Constraints => d.(constraints := v)
    case Dependencies => d.(dependencies := v)
    case Risk => d.(risk := v)
    case SystemArchDetails => d.(systemArchDetails := v)
    case ComponentDetails => d.(componentDetails := v)
    case Requirements => d.(requirements := v)
    case Design => d.(design := v)
    case Impact => d.(impact := v)
    case OutputPayload => d.(outputPayload := v)
    case Test1 => d.(test1 := v)
  }

  /** Editing a field to the value it already holds changes nothing. */
  lemma SetFieldUnchanged(d: HldData, f: Field)
    ensures SetField(d, f, Get(d, f)) == d
  {
  }

  /** Of two edits of the same field, the later one wins. */
  lemma SetFieldTwice(d: HldData, f: Field, a: string, b: string)
    ensures SetField(SetField(d, f, a), f, b) == SetField(d, f, b)
  {
  }

  /** A file-picker selection: the chosen files go after the ones already
      attached, in the order picked. */
  function UploadFiles(d: HldData, added: seq<string>): (r: HldData)
    ensures SameText(r, d)
    ensures |r.designFiles| == |d.designFiles| + |added|
    ensures r.designFiles[..|d.designFiles|] == d.designFiles
    ensures r.designFiles[|d.designFiles|..] == added
  {
    d.(designFiles := d.designFiles + added)
  }

  /** `s.filter((_, i) => i !== index)` over the positions `from`,
      `from + 1`, ... that the elements of `s` occupy. */
  function KeepOthers<T>(s: seq<T>, index: int, from: int): (r: seq<T>)
    ensures |r| <= |s|
  {
    if |s| == 0 then []
    else (if from == index then [] else [s[0]]) + KeepOthers(s[1..], index, from + 1)
  }

  /** The index filter drops exactly the element at `index` when there is
      one, and nothing otherwise. */
  lemma {:induction false} KeepOthersDrops<T>(s: seq<T>, index: int, from: int)
    ensures KeepOthers(s, index, from)
            == if from <= index < from + |s| then s[..index - from] + s[index - from + 1..] else s
    decreases |s|
  {
    if |s| > 0 {
      KeepOthersDrops(s[1..], index, from + 1);
      if from == index {
        assert s[..0] + s[1..] == s[1..];
      } else if from < index < from + |s| {
        assert [s[0]] + (s[1..][..index - from - 1] + s[1..][index - from..])
               == s[..index - from] + s[index - from + 1..];
      } else {
        assert [s[0]] + s[1..] == s;
      }
    }
  }

  /** The Remove button of the file at `index`. */
  function RemoveFile(d: HldData, index: int): (r: HldData)
    ensures SameText(r, d)
    ensures 0 <= index < |d.designFiles| ==>
              |r.designFiles| == |d.designFiles| - 1
              && (forall j :: 0 <= j < index ==> r.designFiles[j] == d.designFiles[j])
              && (forall j :: index <= j < |r.designFiles| ==> r.designFiles[j] == d.designFiles[j + 1])
    ensures !(0 <= index < |d.designFiles|) ==> r.designFiles == d.designFiles
  {
    KeepOthersDrops(d.designFiles, index, 0);
    d.(designFiles := KeepOthers(d.designFiles, index, 0))
  }

  /** Attaching one file and then removing it again restores the record. */
  lemma UploadThenRemoveLast(d: HldData, f: string)
    ensures RemoveFile(UploadFiles(d, [f]), |d.designFiles|) == d
  {
    var u := UploadFiles(d, [f]);
    var r := RemoveFile(u, |d.designFiles|);
    assert r.designFiles == d.designFiles;
  }
}
