/** The guard on a report's status: report-lifecycle.ts. */
module Lifecycle {
  import opened Rows

  predicate Editable(status: ReportStatus) {
    status.DRAFT? || status.FAILED?
  }

  function EditError(status: ReportStatus): Error
    requires !Editable(status)
  {
    if status.QUEUED? || status.PROCESSING? then GenerationActive else NotEditable
  }
}
