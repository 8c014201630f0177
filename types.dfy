/**
 * The records the habit tracker keeps: plans, check-ins and achievements.
 * Calendar dates are whole day numbers (days since 1970-01-01, UTC);
 * timestamps and display strings are kept as opaque strings.
 */
module Types {

  datatype Option<T> = None | Some(value: T)

  /** A calendar date, as a number of days since 1970-01-01. */
  type Day = int

  datatype Plan = Plan(
    id: string,
    name: string,
    description: Option<string>,
    startDate: Day,
    endDate: Option<Day>,
    goal: Option<string>,
    isArchived: bool,
    createdAt: string,
    updatedAt: string)

  datatype CheckIn = CheckIn(
    id: string,
    planId: string,
    date: Day,
    time: string,
    mood: string,
    weather: Option<string>,
    location: Option<string>,
    notes: Option<string>,
    images: Option<seq<string>>,
    createdAt: string)

  datatype Category = Consecutive | Cumulative | Specific | Special | Active

  datatype Level = Easy | Medium | Hard | Expert

  /** `unlockedAt` is the ISO timestamp of the unlock; `None` while locked. */
  datatype Achievement = Achievement(
    id: string,
    name: string,
    description: string,
    category: Category,
    level: Level,
    icon: string,
    requirement: int,
    isHidden: bool,
    unlockedAt: Option<string>)
}
