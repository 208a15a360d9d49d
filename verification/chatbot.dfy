/** The rule-based assistant: fixed trigger lists tried in order on the
    lower-cased message, then the quick reply whose keywords occur most often
    (ties to the earliest), then a fallback; and the conversation history
    that keeps the five most recent conversations. The reply delay is left
    out; the history is a parameter instead of browser storage. */
module Chatbot {
  import opened Common

  datatype QuickReply = QuickReply(id: int, question: string, answer: string, category: string, keywords: seq<string>)

  const QuickReplies: seq<QuickReply> := [
    QuickReply(1, "What are your pet rental prices?",
      "Our pet rental prices vary by pet type and duration. Dogs typically range from \U{20B9}500-2000 per day, cats from \U{20B9}300-1500 per day, and birds from \U{20B9}200-1000 per day. For specific pricing, please check our pet listings or contact us.",
      "pricing", ["price", "cost", "rent", "fee", "how much", "rate", "charge"]),
    QuickReply(2, "What is your cancellation policy?",
      "You can cancel your booking up to 24 hours before the scheduled pickup time for a full refund. Cancellations made within 24 hours may incur a cancellation fee of 20% of the booking amount.",
      "policies", ["cancel", "refund", "policy", "change", "modify", "reschedule"]),
    QuickReply(3, "Do you offer pet insurance?",
      "Yes, we offer pet insurance plans that cover accidents, illnesses, and routine care. Insurance costs vary based on the pet type and coverage level. You can add insurance during the checkout process.",
      "insurance", ["insurance", "cover", "protection", "accident", "illness", "health", "medical"]),
    QuickReply(4, "How do I return a rented pet?",
      "To return a rented pet, simply bring it back to our location during our business hours. Make sure the pet is in the same condition as when you received it. Our staff will inspect the pet and complete the return process.",
      "returns", ["return", "bring back", "drop off", "give back", "hand over", "complete rental"]),
    QuickReply(5, "What happens if a pet gets sick while in my care?",
      "If a pet gets sick while in your care, please contact us immediately at +91 9876543210. We have a 24/7 support line for emergencies. Our insurance plans cover veterinary expenses for accidents and illnesses.",
      "emergency", ["sick", "ill", "emergency", "vet", "veterinarian", "health", "medical", "problem"]),
    QuickReply(6, "What documents do I need to rent a pet?",
      "You'll need a valid government-issued ID, proof of address, and a signed rental agreement. For certain pets, we may also require proof of pet care experience or a home visit.",
      "requirements", ["document", "id", "proof", "require", "need", "paperwork", "verification"]),
    QuickReply(7, "Do you provide pet supplies?",
      "Yes, we offer a range of pet supplies including food, toys, bedding, and basic care items. These can be added to your rental package for an additional fee.",
      "supplies", ["supply", "food", "toy", "bedding", "accessory", "equipment", "item", "kit"]),
    QuickReply(8, "What is your pet selection process?",
      "We carefully match pets with renters based on experience level, living situation, and preferences. All our pets are health-checked, vaccinated, and temperament-tested to ensure safe and enjoyable experiences.",
      "selection", ["select", "match", "process", "choose", "pick", "find", "available", "breed"]),
    QuickReply(9, "Can I extend my rental period?",
      "Yes, you can extend your rental period as long as the pet is available for the extended dates. Please contact us at least 24 hours before your current rental period ends to arrange an extension.",
      "extensions", ["extend", "longer", "more days", "continue", "keep", "additional time"]),
    QuickReply(10, "Do you offer pet training services?",
      "Yes, we offer pet training services for an additional fee. Our certified trainers can help with basic obedience, house training, and behavior modification. Training sessions can be scheduled during your rental period.",
      "training", ["train", "training", "behavior", "obedience", "teach", "learn", "skill"]),
    QuickReply(11, "What types of pets do you offer for rent?",
      "We offer a variety of pets for rent including dogs, cats, birds, rabbits, hamsters, and guinea pigs. Each pet comes with its own care instructions and supplies. Check our listings for available pets.",
      "pet-types", ["type", "kind", "breed", "species", "animal", "dog", "cat", "bird", "rabbit"]),
    QuickReply(12, "How do I make a reservation?",
      "You can make a reservation through our website by selecting a pet, choosing your rental dates, and completing the checkout process. You'll need to create an account if you don't have one already.",
      "reservation", ["reserve", "book", "schedule", "appointment", "arrange", "set up", "make"])
  ]

  // ---------------------------------------------------------------------------
  // The fixed triggers, in the order they are tried

  const GreetingWords: seq<string> := ["hi", "hello", "hey", "good morning", "good afternoon", "good evening"]
  const ThanksWords: seq<string> := ["thank", "thanks", "appreciate"]
  const GoodbyeWords: seq<string> := ["bye", "goodbye", "see you", "farewell"]
  const HelpWords: seq<string> := ["help"]
  const ContactWords: seq<string> := ["contact", "phone", "email", "address", "reach", "support"]
  const HoursWords: seq<string> := ["hour", "open", "close", "time", "when"]
  const LocationWords: seq<string> := ["where", "location", "address", "place"]
  const PaymentWords: seq<string> := ["pay", "payment", "card", "cash", "online"]

  /** Some word of the list occurs in the message. */
  predicate AnyIn(m: string, words: seq<string>) {
    exists i :: 0 <= i < |words| && Contains(m, words[i])
  }

  /** Which answer the assistant gives. */
  datatype Reply = Greeting | Thanks | Goodbye | Help | ContactInfo | Hours | Location | Payment
                 | Quick(index: nat) | Fallback

  // ---------------------------------------------------------------------------
  // Keyword scoring

  /** How many of the keywords occur in the message. */
  function Score(m: string, keywords: seq<string>): (r: nat)
    ensures r <= |keywords|
    ensures r == 0 <==> forall i :: 0 <= i < |keywords| ==> !Contains(m, keywords[i])
  {
    if |keywords| == 0 then 0
    else (if Contains(m, keywords[0]) then 1 else 0) + Score(m, keywords[1..])
  }

  function ScoreAt(m: string, rs: seq<QuickReply>, j: nat): nat
    requires j < |rs|
  {
    Score(m, rs[j].keywords)
  }

  /** `best` is the first reply of `rs[..n]` with the greatest score `max`,
      and is absent exactly when every score there is 0. */
  predicate FirstBest(m: string, rs: seq<QuickReply>, n: nat, best: Option<nat>, max: nat)
    requires n <= |rs|
  {
    && (forall j :: 0 <= j < n ==> ScoreAt(m, rs, j) <= max)
    && (best.None? <==> max == 0)
    && (best.Some? ==> best.value < n && ScoreAt(m, rs, best.value) == max
                       && forall j :: 0 <= j < best.value ==> ScoreAt(m, rs, j) < max)
  }

  /** The scan over the replies from position `i`, replacing the best only on
      a strictly greater score. */
  function BestFrom(m: string, rs: seq<QuickReply>, i: nat, best: Option<nat>, max: nat): (r: (Option<nat>, nat))
    requires i <= |rs| && FirstBest(m, rs, i, best, max)
    ensures FirstBest(m, rs, |rs|, r.0, r.1)
    decreases |rs| - i
  {
    if i == |rs| then (best, max)
    else
      var s := ScoreAt(m, rs, i);
      if s > max then BestFrom(m, rs, i + 1, Some(i), s)
      else BestFrom(m, rs, i + 1, best, max)
  }

  function Best(m: string, rs: seq<QuickReply>): (r: (Option<nat>, nat))
    ensures FirstBest(m, rs, |rs|, r.0, r.1)
  {
    BestFrom(m, rs, 0, None, 0)
  }

  /** Of two replies with the greatest score, the later one is never chosen. */
  lemma TieGoesToEarliest(m: string, rs: seq<QuickReply>, j: nat, k: nat)
    requires j < k < |rs| && ScoreAt(m, rs, j) == ScoreAt(m, rs, k) == Best(m, rs).1
    ensures Best(m, rs).0 != Some(k)
  {
  }

  // ---------------------------------------------------------------------------
  // The response

  /** `getChatbotResponse`, as the choice of answer: the first trigger list
      with a word in the lower-cased message wins, then the best-scoring
      quick reply when some keyword occurs, then the fallback. */
  function Classify(message: string): (r: Reply)
    ensures var m := Lower(message);
      && (AnyIn(m, GreetingWords) <==> r == Greeting)
      && (r == Thanks <==> (!AnyIn(m, GreetingWords) && AnyIn(m, ThanksWords)))
      && (r == Goodbye <==> (!AnyIn(m, GreetingWords) && !AnyIn(m, ThanksWords) && AnyIn(m, GoodbyeWords)))
      && (r == Help <==> (!AnyIn(m, GreetingWords) && !AnyIn(m, ThanksWords) && !AnyIn(m, GoodbyeWords)
            && AnyIn(m, HelpWords)))
      && (r == ContactInfo <==> (!AnyIn(m, GreetingWords) && !AnyIn(m, ThanksWords) && !AnyIn(m, GoodbyeWords)
            && !AnyIn(m, HelpWords) && AnyIn(m, ContactWords)))
      && (r == Hours <==> (!AnyIn(m, GreetingWords) && !AnyIn(m, ThanksWords) && !AnyIn(m, GoodbyeWords)
            && !AnyIn(m, HelpWords) && !AnyIn(m, ContactWords) && AnyIn(m, HoursWords)))
      && (r == Location <==> (!AnyIn(m, GreetingWords) && !AnyIn(m, ThanksWords) && !AnyIn(m, GoodbyeWords)
            && !AnyIn(m, HelpWords) && !AnyIn(m, ContactWords) && !AnyIn(m, HoursWords)
            && AnyIn(m, LocationWords)))
      && (r == Payment <==> (!AnyIn(m, GreetingWords) && !AnyIn(m, ThanksWords) && !AnyIn(m, GoodbyeWords)
            && !AnyIn(m, HelpWords) && !AnyIn(m, ContactWords) && !AnyIn(m, HoursWords)
            && !AnyIn(m, LocationWords) && AnyIn(m, PaymentWords)))
      && (NoTrigger(m) <==> r.Quick? || r == Fallback)
      && (r.Quick? ==> r.index < |QuickReplies| && Best(m, QuickReplies).0 == Some(r.index))
      && (r == Fallback <==> NoTrigger(m) && forall j :: 0 <= j < |QuickReplies| ==> ScoreAt(m, QuickReplies, j) == 0)
  {
    var m := Lower(message);
    if AnyIn(m, GreetingWords) then Greeting
    else if AnyIn(m, ThanksWords) then Thanks
    else if AnyIn(m, GoodbyeWords) then Goodbye
    else if AnyIn(m, HelpWords) then Help
    else if AnyIn(m, ContactWords) then ContactInfo
    else if AnyIn(m, HoursWords) then Hours
    else if AnyIn(m, LocationWords) then Location
    else if AnyIn(m, PaymentWords) then Payment
    else
      var (best, max) := Best(m, QuickReplies);
      if best.Some? && max >= 1 then Quick(best.value) else Fallback
  }

  /** A message triggers none of the fixed lists. */
  predicate NoTrigger(m: string) {
    !AnyIn(m, GreetingWords) && !AnyIn(m, ThanksWords) && !AnyIn(m, GoodbyeWords) && !AnyIn(m, HelpWords)
    && !AnyIn(m, ContactWords) && !AnyIn(m, HoursWords) && !AnyIn(m, LocationWords) && !AnyIn(m, PaymentWords)
  }

  /** The fixed triggers as a table, each list with the answer it selects. */
  const Triggers: seq<(seq<string>, Reply)> := [
    (GreetingWords, Greeting), (ThanksWords, Thanks), (GoodbyeWords, Goodbye), (HelpWords, Help),
    (ContactWords, ContactInfo), (HoursWords, Hours), (LocationWords, Location), (PaymentWords, Payment)
  ]

  /** The answer of the first table row with a word in the message. */
  function FirstTrigger(m: string, table: seq<(seq<string>, Reply)>): (r: Option<Reply>)
    ensures r.None? <==> forall k :: 0 <= k < |table| ==> !AnyIn(m, table[k].0)
    ensures r.Some? ==> exists k :: 0 <= k < |table| && AnyIn(m, table[k].0) && r.value == table[k].1
                                    && forall j :: 0 <= j < k ==> !AnyIn(m, table[j].0)
  {
    if |table| == 0 then None
    else if AnyIn(m, table[0].0) then Some(table[0].1)
    else
      var r := FirstTrigger(m, table[1..]);
      assert r.Some? ==> exists k :: 1 <= k < |table| && AnyIn(m, table[k].0) && r.value == table[k].1
                                     && forall j :: 0 <= j < k ==> !AnyIn(m, table[j].0) by {
        if r.Some? {
          var k :| 0 <= k < |table[1..]| && AnyIn(m, table[1..][k].0) && r.value == table[1..][k].1
                   && forall j :: 0 <= j < k ==> !AnyIn(m, table[1..][j].0);
          assert forall j :: 1 <= j < k + 1 ==> table[j] == table[1..][j - 1];
        }
      }
      r
  }

  /** The chain of trigger tests is the first-match reading of the table:
      the first row whose list occurs decides, and when none occurs the
      keyword stage does. */
  lemma {:induction false} ClassifyByTable(message: string)
    ensures var m := Lower(message);
            FirstTrigger(m, Triggers).Some? ==> Classify(message) == FirstTrigger(m, Triggers).value
    ensures FirstTrigger(Lower(message), Triggers).None? <==> NoTrigger(Lower(message))
  {
    var m := Lower(message);
    var t := FirstTrigger(m, Triggers);
    var rows := Triggers;
    assert rows[0].0 == GreetingWords && rows[1].0 == ThanksWords && rows[2].0 == GoodbyeWords && rows[3].0 == HelpWords;
    assert rows[4].0 == ContactWords && rows[5].0 == HoursWords && rows[6].0 == LocationWords && rows[7].0 == PaymentWords;
    if t.Some? {
      var k :| 0 <= k < |rows| && AnyIn(m, rows[k].0) && t.value == rows[k].1
               && forall j :: 0 <= j < k ==> !AnyIn(m, rows[j].0);
      assert 0 <= k < 8;
    }
  }

  /** The keyword stage: with no trigger, the answer is the first reply of
      greatest score when some keyword occurs, and the fallback otherwise. */
  lemma KeywordStage(message: string)
    requires NoTrigger(Lower(message))
    ensures var m := Lower(message);
            var best := Best(m, QuickReplies);
            (best.1 >= 1 ==> Classify(message) == Quick(best.0.value))
            && (best.1 == 0 <==> Classify(message) == Fallback)
  {
  }

  /** Substring matching makes "this" a greeting: it contains "hi". */
  lemma ThisIsAGreeting()
    ensures Classify("this") == Greeting
  {
    var m := Lower("this");
    assert m == "this";
    assert m[1..] == "his";
    assert "hi" <= m[1..];
    assert Contains(m[1..], "hi");
    ContainsSlice(m, 1, "hi");
    assert Contains(m, GreetingWords[0]);
  }

  /** The location list's "address" can never decide: a message containing
      it is caught by an earlier list, the contact list at the latest. */
  lemma AddressNeverLocation(message: string)
    requires Contains(Lower(message), "address")
    ensures Classify(message) != Location
    ensures var m := Lower(message);
            !AnyIn(m, GreetingWords) && !AnyIn(m, ThanksWords) && !AnyIn(m, GoodbyeWords) && !AnyIn(m, HelpWords)
            ==> Classify(message) == ContactInfo
  {
    assert ContactWords[3] == "address";
  }

  // ---------------------------------------------------------------------------
  // Answer texts

  const Phone := "+91 7383367738"
  const SupportEmail := "support@petrental.com"
  const Address := "Naroda, Ahmedabad, Gujarat, India"

  const FallbackText :=
    "I'm not sure I understand. You can select from the common questions above or contact our support team at +91 9876543210 for assistance."

  function ReplyText(r: Reply): string {
    match r
    case Greeting => "Hello! How can I assist you today?"
    case Thanks => "You're welcome! Is there anything else I can help you with?"
    case Goodbye => "Goodbye! Have a great day! Feel free to chat again if you need any help."
    case Help => "I'm here to help! You can ask me about:\n- Pet rental prices\n- Booking process\n- Insurance options\n- Cancellation policies\n- Pet care guidelines\nOr select from the common questions above."
    case ContactInfo =>
      "You can reach us at:\nPhone: " + Phone + "\nEmail: " + SupportEmail + "\nAddress: " + Address
      + "\nOur support hours are 9 AM to 9 PM, 7 days a week."
    case Hours => "We are open from 9 AM to 9 PM, 7 days a week. You can make reservations online 24/7."
    case Location =>
      "We are located at " + Address + ". You can find us on Google Maps by searching for \"Pet Rental Mumbai\"."
    case Payment =>
      "We accept all major credit and debit cards, UPI, and cash payments. Online payments are processed securely through our website."
    case Quick(i) => if i < |QuickReplies| then QuickReplies[i].answer else FallbackText
    case Fallback => FallbackText
  }

  /** The text `getChatbotResponse` resolves to. */
  function Respond(message: string): string {
    ReplyText(Classify(message))
  }

  // ---------------------------------------------------------------------------
  // Conversation history

  datatype ChatMessage = ChatMessage(sender: string, text: string)

  datatype Conversation = Conversation(id: string, date: string, messages: seq<ChatMessage>)

  const HistoryLimit: nat := 5

  /** `saveConversation`: the conversation, keyed by its timestamp, appended,
      then only the last five kept. */
  function SaveConversation(existing: seq<Conversation>, messages: seq<ChatMessage>, timestamp: string)
    : (r: seq<Conversation>)
    ensures |r| == if |existing| < HistoryLimit then |existing| + 1 else HistoryLimit
    ensures r[|r| - 1] == Conversation(timestamp, timestamp, messages)
    ensures r[..|r| - 1] == existing[|existing| + 1 - |r|..]
  {
    var c := Conversation(timestamp, timestamp, messages);
    var all := existing + [c];
    if |all| > HistoryLimit then
      var k := |existing| + 1 - HistoryLimit;
      assert all[k..] == existing[k..] + [c];
      all[k..]
    else
      assert all[..|all| - 1] == existing;
      all
  }

  /** The history never grows past five, and a history under five loses nothing. */
  lemma HistoryBounded(existing: seq<Conversation>, messages: seq<ChatMessage>, timestamp: string)
    ensures |SaveConversation(existing, messages, timestamp)| <= HistoryLimit
    ensures |existing| < HistoryLimit ==>
              SaveConversation(existing, messages, timestamp) == existing + [Conversation(timestamp, timestamp, messages)]
  {
    var r := SaveConversation(existing, messages, timestamp);
    if |existing| < HistoryLimit {
      assert r == r[..|r| - 1] + [r[|r| - 1]];
    }
  }
}
