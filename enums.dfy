/** The enumerations the application shares between its screens and its server API. */
module Enums {

  /** Days a notification schedule can fire on. */
  datatype DayOfWeek = Monday | Tuesday | Wednesday | Thursday | Friday | Saturday | Sunday

  /** Learner levels; scenarios are listed per level. */
  datatype Level = Beginner | Intermediate | Advanced

  /** Conversation topics a learner can pick at sign-up. */
  datatype Category = Daily | Business | Travel | Shopping

  /** Identity providers a social sign-up can start from. */
  datatype SocialProvider = Google | Apple | Kakao
}
