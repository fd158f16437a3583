/** The two input guards of the dashboard: which file selections are kept,
    and when an aggregation request may be sent. */
module ViewGuards {
  import opened JsValue

  /** The eight aggregation functions the form offers. */
  const AggFunctions: seq<string> := ["sum", "mean", "min", "max", "count", "n_unique", "median", "std"]

  /** A file picked in the browser's file dialog, with the MIME type the
      browser reports for it. */
  datatype FileRef = FileRef(name: string, mimeType: string)

  datatype UploadStatus = Idle | Uploading | Success | Failed

  /** The query an aggregation request carries. */
  datatype AggregationRequest = AggregationRequest(catCol: string, conCol: string, aggFunc: string)

  /** `selectedFile && selectedFile.type === "text/csv"`. */
  predicate IsCsvSelection(selected: Option<FileRef>)
  {
    selected.Some? && selected.value.mimeType == "text/csv"
  }

  /** The dashboard's form state that the guards read and write. */
  class Dashboard {
    var file: Option<FileRef>
    var uploadStatus: UploadStatus
    var uploadMessage: string
    var catCol: string
    var conCol: string
    var aggFunc: string

    /** The chosen aggregation function is one the form offers. */
    predicate Valid()
      reads this
    {
      aggFunc in AggFunctions
    }

    constructor ()
      ensures Valid()
      ensures file == None && uploadStatus == Idle && uploadMessage == ""
      ensures catCol == "" && conCol == "" && aggFunc == "mean"
    {
      file := None;
      uploadStatus := Idle;
      uploadMessage := "";
      catCol := "";
      conCol := "";
      aggFunc := "mean";
    }

    /** handleFileChange: a CSV selection replaces the file and resets the
        upload status and message; anything else (no file, another type)
        raises an alert and changes nothing. */
    method HandleFileChange(selected: Option<FileRef>) returns (alerted: bool)
      requires Valid()
      modifies this`file, this`uploadStatus, this`uploadMessage
      ensures Valid()
      ensures alerted <==> !IsCsvSelection(selected)
      ensures !alerted ==> file == selected && uploadStatus == Idle && uploadMessage == ""
      ensures alerted ==> file == old(file) && uploadStatus == old(uploadStatus)
                          && uploadMessage == old(uploadMessage)
    {
      if IsCsvSelection(selected) {
        file := selected;
        uploadStatus := Idle;
        uploadMessage := "";
        alerted := false;
      } else {
        alerted := true;
      }
    }

    /** The guard of performAggregation: with either column unselected the
        user is alerted and nothing is sent; otherwise the request carries
        the two selected columns and the chosen function. */
    method PerformAggregation() returns (request: Option<AggregationRequest>)
      requires Valid()
      ensures request.None? <==> catCol == "" || conCol == ""
      ensures request.Some? ==> request.value == AggregationRequest(catCol, conCol, aggFunc)
      ensures request.Some? ==> request.value.aggFunc in AggFunctions
    {
      if catCol == "" || conCol == "" {
        request := None;
      } else {
        request := Some(AggregationRequest(catCol, conCol, aggFunc));
      }
    }
  }
}
