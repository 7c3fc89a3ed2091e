/** Keyword groups of the heuristic engine and what it means for lower-cased text to
    match one. Every group is an alternation of `\bkeyword\b` patterns; since every
    keyword begins and ends with a word character, such a pattern matches exactly
    where the keyword occurs with no word character right before or right after it. */
module Keywords {
  import opened Js

  /** `\bkw\b` matches `text` at index `i`. */
  predicate BoundedAt(text: string, kw: string, i: int) {
    0 <= i && i + |kw| <= |text| && text[i..i + |kw|] == kw
    && (i == 0 || !IsWordChar(text[i - 1]))
    && (i + |kw| == |text| || !IsWordChar(text[i + |kw|]))
  }

  /** `/\bkw\b/.test(text)`: some index holds a bounded occurrence of `kw`. */
  predicate ContainsWord(text: string, kw: string) {
    exists j :: 0 <= j <= |text| - |kw| && BoundedAt(text, kw, j)
  }

  /** `/\bk1\b|\bk2\b|.../.test(text)`: some keyword of the group occurs. */
  predicate MatchesAny(text: string, group: seq<string>) {
    exists k :: 0 <= k < |group| && ContainsWord(text, group[k])
  }

  // Tag groups (the work-tag keyword table).
  const DEEP_WORK_WORDS: seq<string> :=
    ["deep work", "writing", "code", "coding", "debug", "design", "analysis", "architect", "prototype"]
  const ADMIN_WORDS: seq<string> :=
    ["email", "inbox", "schedule", "calendar", "administrative", "admin", "form", "expense", "task list"]
  /** `1-?on-?1` is spelled out as its four literal forms. */
  const COMMUNICATING_WORDS: seq<string> :=
    ["meeting", "meet", "call", "1-on-1", "1on-1", "1-on1", "1on1", "sync", "interview", "presentation"]
  const LEARNING_WORDS: seq<string> :=
    ["learn", "learning", "read", "reading", "course", "training", "webinar", "research", "study"]

  // Level groups, per criterion: the "high" tier and the other tier.
  const FOCUS_HIGH_WORDS: seq<string> := ["deep work", "strategy", "design", "write", "research", "debug"]
  const FOCUS_LOW_WORDS: seq<string> := ["email", "cleanup", "habit", "scroll", "admin", "backlog"]
  const MENTAL_HIGH_WORDS: seq<string> := ["architecture", "financial", "planning", "proposal", "presentation"]
  const MENTAL_LOW_WORDS: seq<string> := ["refill", "chores", "maintenance", "water", "grocery"]
  const MOVEMENT_HIGH_WORDS: seq<string> :=
    ["gym", "run", "walk", "commute", "travel", "meeting", "shoot", "errand"]
  const MOVEMENT_MEDIUM_WORDS: seq<string> := ["setup", "record", "deliver", "visit"]
  const URGENCY_HIGH_WORDS: seq<string> := ["urgent", "asap", "deadline", "due", "submit", "today", "call"]
  const URGENCY_LOW_WORDS: seq<string> := ["idea", "draft", "explore", "someday"]
}
