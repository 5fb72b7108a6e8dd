/** The cells both reports write into their CSV text, kept structured: the
    text of a number, a date or a timestamp is chrono's and Rust's `Display`,
    which this model does not spell out. */
module Csv {
  import opened Schedules

  /** One comma-separated field: text, a number, a calendar day, a
      timestamp, or the floating-point percentage of the efficiency report. */
  datatype Field = Text(text: string) | Number(value: int) | Date(day: int) | DateTime(stamp: Stamp) | Percentage
}
