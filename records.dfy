/**
  The rows of the `audits` table, as the audit handlers write them and the
  pages read them. Timestamps are milliseconds since the epoch; the table
  stores them as ISO strings, whose order is the same.
*/
module Records {
  import opened Wrappers

  /** Row ids are assigned by the table (a UUID string). */
  type Id = string

  /** The `status` column is free text; the handlers write and the pages test these three values. */
  const Completed: string := "completed"
  const Pending: string := "pending"
  const Failed: string := "failed"

  /** One entry of `findings.issues` as the audit handler writes it. */
  datatype Issue = Issue(element: string, suggestion: string, severity: string)

  /** The `findings` JSON column: a summary, an optional score and a list of issues. */
  datatype Findings = Findings(summary: string, score: Option<int>, issues: seq<Issue>)

  /** One row of the `audits` table (its id is the key it is stored under). */
  datatype Audit = Audit(
    url: string,
    status: string,
    createdAt: nat,
    updatedAt: nat,
    desktopScreenshot: Option<string>,
    mobileScreenshot: Option<string>,
    findings: Option<Findings>)

  /** A row together with its id, as a query returns it. */
  datatype Row = Row(id: Id, audit: Audit)

  /** The hard-coded findings the audit handler stores in place of an analysis: one high-severity issue, no score. */
  const MockFindings: Findings :=
    Findings(
      "Sample AI feedback: Your CTA is below the fold. Move it up for higher conversions.",
      None,
      [Issue("button", "Place it higher", "high")])
}
