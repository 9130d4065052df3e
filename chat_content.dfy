/**
 * The scripted conversation of client/src/data/chatContent.ts: one table
 * per mood, keyed by step, and the lookup the wizard uses.
 */
module ChatContent {
  import opened Schema
  import opened Text

  datatype Sender = System | User

  /** A chat message: who says it and its text, which may hold a small HTML list. */
  datatype Message = Message(sender: Sender, text: string)

  /**
   * The closing question of every step 3, written in two parts at the place
   * where the final-options check looks for its first part.
   */
  const AskPrompt: string := "Would you like to"
  const AskRest: string := " start another session or end here?"

  const HappyStep1: seq<Message> := [
    Message(System, "I see you're feeling happy today. Let's build on that positive energy."),
    Message(System, "Take a moment to smile, and notice how that feels in your body. Allow your breath to deepen naturally."),
    Message(User, "I'm ready to continue.")
  ]

  const HappyStep2: seq<Message> := [
    Message(System, "Wonderful! Here's a joy-enhancing affirmation for you:"),
    Message(System, "\"I am grateful for this moment of joy, and I choose to carry this feeling with me throughout my day.\""),
    Message(System, "Repeat this affirmation to yourself, and notice how it amplifies your positive feelings."),
    Message(User, "I've done the affirmation.")
  ]

  const HappyStep3: seq<Message> := [
    Message(System, "How do you feel after our session today?"),
    Message(User, "I feel even more positive now."),
    Message(System, "That's wonderful! When you're already feeling good, it's a perfect time to:"),
    Message(System, "<ul><li>Share your positive energy with others</li><li>Tackle a challenge you've been postponing</li><li>Express gratitude to someone important to you</li></ul>"),
    Message(System, "Happiness is a resource you can draw from and share freely."),
    Message(User, "Thank you for this session."),
    Message(System, AskPrompt + AskRest)
  ]

  const OkayStep1: seq<Message> := [
    Message(System, "I see you're feeling okay today. Let's take a moment to center ourselves."),
    Message(System, "Take a deep breath in... and out. Feel your body relax with each breath."),
    Message(User, "I'm ready to continue.")
  ]

  const OkayStep2: seq<Message> := [
    Message(System, "Here's a helpful affirmation for when you're feeling balanced but could use a boost:"),
    Message(System, "\"I acknowledge where I am right now, and I know I have the power to move toward where I want to be.\""),
    Message(System, "Take a moment to repeat this to yourself, either out loud or mentally."),
    Message(User, "I've done the affirmation.")
  ]

  const OkayStep3: seq<Message> := [
    Message(System, "How do you feel after our session today?"),
    Message(User, "I feel more centered now."),
    Message(System, "That's wonderful to hear! Here are some things you might consider for the rest of your day:"),
    Message(System, "<ul><li>Take short mindfulness breaks</li><li>Stay hydrated</li><li>Connect with a friend or loved one</li></ul>"),
    Message(System, "Remember, each moment is an opportunity to check in with yourself."),
    Message(User, "Thank you, this was helpful."),
    Message(System, "You're welcome! " + AskPrompt + AskRest)
  ]

  const StressedStep1: seq<Message> := [
    Message(System, "I see you're feeling stressed today. Let's take a moment to acknowledge that and create some space for relief."),
    Message(System, "Take a slow, deep breath in through your nose for a count of 4... hold for 1... and exhale through your mouth for a count of 6. Let's repeat this three times."),
    Message(User, "I've completed the breathing exercise.")
  ]

  const StressedStep2: seq<Message> := [
    Message(System, "When we're feeling stressed, it helps to ground ourselves with a calming affirmation:"),
    Message(System, "\"This feeling is temporary. I am stronger than my stress, and I can choose peace in this moment.\""),
    Message(System, "As you repeat this affirmation, place a hand on your heart and feel the connection between your words and your body."),
    Message(User, "I've practiced the affirmation.")
  ]

  const StressedStep3: seq<Message> := [
    Message(System, "How are you feeling now compared to when we started?"),
    Message(User, "I'm feeling calmer than before."),
    Message(System, "I'm glad to hear that. When stress is present, these simple practices can help you regain balance:"),
    Message(System, "<ul><li>Take a short walk outside if possible</li><li>Limit caffeine and stay hydrated</li><li>Write down what's on your mind</li><li>Reach out to a supportive person</li></ul>"),
    Message(System, "Remember that managing stress is an ongoing practice, not a one-time solution."),
    Message(User, "I appreciate these suggestions."),
    Message(System, AskPrompt + AskRest)
  ]
  /** A mood's table, keyed by step. */
  function Table(mood: Mood): map<int, seq<Message>>
  {
    match mood
    case Happy => map[1 := HappyStep1, 2 := HappyStep2, 3 := HappyStep3]
    case Okay => map[1 := OkayStep1, 2 := OkayStep2, 3 := OkayStep3]
    case Stressed => map[1 := StressedStep1, 2 := StressedStep2, 3 := StressedStep3]
  }

  /**
   * getChatContent: the mood's list for that step, or the empty list when
   * the table has no such key (`|| []`).
   */
  function GetChatContent(mood: Mood, step: int): (r: seq<Message>)
    ensures !IsStep(step) ==> r == []
    ensures IsStep(step) ==> r == Table(mood)[step]
  {
    var table := Table(mood);
    if step in table then table[step] else []
  }

  /** Steps 1, 2 and 3 have 3, 4 and 7 messages for every mood; other steps none. */
  lemma ContentSizes(mood: Mood, step: int)
    ensures |GetChatContent(mood, step)| == if step == 1 then 3 else if step == 2 then 4 else if step == 3 then 7 else 0
  {
  }

  /** Every step 1..3 of every mood has something to show. */
  lemma ContentNonEmpty(mood: Mood, step: int)
    ensures |GetChatContent(mood, step)| > 0 <==> 1 <= step <= 3
  {
    ContentSizes(mood, step);
  }

  /** Steps 1 and 2 open with the system and close with the user's reply. */
  lemma OpeningStepsShape(mood: Mood, step: int)
    requires step == 1 || step == 2
    ensures var c := GetChatContent(mood, step);
      |c| > 0 && c[0].sender == System && c[|c| - 1].sender == User
  {
  }

  /** What the final system message of step 3 says before the closing question. */
  function ClosingLead(mood: Mood): string
  {
    if mood == Okay then "You're welcome! " else ""
  }

  /** The seventh and last message of step 3 is the system's closing question. */
  lemma ClosingMessage(mood: Mood)
    ensures |GetChatContent(mood, 3)| == 7
    ensures GetChatContent(mood, 3)[6] == Message(System, ClosingLead(mood) + AskPrompt + AskRest)
  {
  }

  /** The last message of step 3 is the system asking whether to go on. */
  lemma ClosingQuestion(mood: Mood)
    ensures var c := GetChatContent(mood, 3);
      && |c| > 0
      && c[|c| - 1].sender == System
      && Contains(c[|c| - 1].text, AskPrompt)
      && AskPrompt == "Would you like to"
  {
    ClosingMessage(mood);
    ContainsSpliced(ClosingLead(mood), AskPrompt, AskRest);
  }
}
