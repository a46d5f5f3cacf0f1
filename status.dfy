/**
 * The section structure of `wpctl status` output that both parsers rely on:
 * the line that opens the sink list and the lines that name a later section.
 */
module Status {
  import opened Text

  /** A line that opens the sink list, such as ` ├─ Sinks:`. */
  predicate IsSinksHeader(line: string)
    ensures IsSinksHeader(line) ==> |line| >= |"Sinks:"|
  {
    Contains(line, "Sinks:")
  }

  /** A line that names one of the sections printed after the sinks. */
  predicate IsSectionMarker(line: string)
    ensures IsSectionMarker(line) ==> |line| >= |"Sources:"|
  {
    Contains(line, "Sources:") || Contains(line, "Filters:") || Contains(line, "Streams:")
  }

  /** A line opens the sink list exactly when "Sinks:" occurs in it at some index. */
  lemma {:induction false} SinksHeaderSpec(line: string)
    ensures IsSinksHeader(line) <==> exists i: nat :: OccursAt(line, "Sinks:", i)
  {
    ContainsIffOccurs(line, "Sinks:");
  }

  /** A line names a later section exactly when one of the three section titles occurs in it at some index. */
  lemma {:induction false} SectionMarkerSpec(line: string)
    ensures IsSectionMarker(line) <==> exists i: nat :: OccursAt(line, "Sources:", i) || OccursAt(line, "Filters:", i) || OccursAt(line, "Streams:", i)
  {
    ContainsIffOccurs(line, "Sources:");
    ContainsIffOccurs(line, "Filters:");
    ContainsIffOccurs(line, "Streams:");
  }
}
