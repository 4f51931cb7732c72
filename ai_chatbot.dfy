/** The chat window: a greeting, four quick questions, and a send that
    appends the trimmed question and, after a pause, a canned answer. */
module AIChatbot {
  import opened JsText

  datatype Role = User | Assistant

  datatype Message = Message(id: string, role: Role, content: string)

  const Greeting: string := "\U{60A8}\U{597D}\U{FF01}\U{6211}\U{662F} StableFi \U{667A}\U{80FD}\U{52A9}\U{624B}\U{FF0C}\U{5F88}\U{9AD8}\U{5174}\U{4E3A}\U{60A8}\U{670D}\U{52A1}\U{3002}\U{60A8}\U{53EF}\U{4EE5}\U{95EE}\U{6211}\U{5173}\U{4E8E}\U{7A33}\U{5B9A}\U{5E01}\U{6295}\U{8D44}\U{4EA7}\U{54C1}\U{3001}\U{5F00}\U{6237}\U{6D41}\U{7A0B}\U{3001}\U{8D39}\U{7528}\U{7ED3}\U{6784}\U{7B49}\U{4EFB}\U{4F55}\U{95EE}\U{9898}\U{3002}"

  const Question1: string := "\U{4EC0}\U{4E48}\U{662F}\U{7A33}\U{5B9A}\U{5E01}\U{6536}\U{76CA}\U{4EA7}\U{54C1}\U{FF1F}"
  const Question2: string := "\U{5982}\U{4F55}\U{9009}\U{62E9}\U{5408}\U{9002}\U{7684}\U{4EA7}\U{54C1}\U{FF1F}"
  const Question3: string := "\U{5F00}\U{6237}\U{9700}\U{8981}\U{54EA}\U{4E9B}\U{8D44}\U{6599}\U{FF1F}"
  const Question4: string := "\U{5E74}\U{5316}\U{6536}\U{76CA}\U{662F}\U{5982}\U{4F55}\U{8BA1}\U{7B97}\U{7684}\U{FF1F}"

  /** `quickReplies`, in display order. */
  const QuickReplies: seq<string> := [Question1, Question2, Question3, Question4]

  const Answer1: string :=
    "\U{7A33}\U{5B9A}\U{5E01}\U{6536}\U{76CA}\U{4EA7}\U{54C1}\U{662F}\U{4E00}\U{79CD}\U{5C06}\U{7A33}\U{5B9A}\U{5E01}\U{5B58}\U{5165}\U{7279}\U{5B9A}\U{534F}\U{8BAE}\U{6216}\U{5E73}\U{53F0}\U{FF0C}\U{83B7}\U{53D6}\U{56FA}\U{5B9A}\U{6216}\U{6D6E}\U{52A8}\U{6536}\U{76CA}\U{7684}\U{6295}\U{8D44}\U{65B9}\U{5F0F}\U{3002}\U{8FD9}\U{4E9B}\U{4EA7}\U{54C1}\U{901A}\U{5E38}\U{901A}\U{8FC7}\U{501F}\U{8D37}\U{3001}\U{8D28}\U{62BC}\U{6216}\U{5176}\U{4ED6} DeFi \U{7B56}\U{7565}\U{6765}\U{4EA7}\U{751F}\U{6536}\U{76CA}\U{FF0C}\U{98CE}\U{9669}\U{76F8}\U{5BF9}\U{8F83}\U{4F4E}\U{FF0C}\U{9002}\U{5408}\U{5E0C}\U{671B}\U{83B7}\U{5F97}\U{7A33}\U{5B9A}\U{56DE}\U{62A5}\U{7684}\U{673A}\U{6784}\U{6295}\U{8D44}\U{8005}\U{3002}"
  const Answer2: string :=
    "\U{9009}\U{62E9}\U{7A33}\U{5B9A}\U{5E01}\U{4EA7}\U{54C1}\U{65F6}\U{FF0C}\U{5EFA}\U{8BAE}\U{8003}\U{8651}\U{4EE5}\U{4E0B}\U{56E0}\U{7D20}\U{FF1A}\n\n1. **\U{5E74}\U{5316}\U{6536}\U{76CA}\U{7387}** - \U{5BF9}\U{6BD4}\U{4E0D}\U{540C}\U{4EA7}\U{54C1}\U{7684}\U{6536}\U{76CA}\n2. **\U{8D39}\U{7528}\U{7ED3}\U{6784}** - \U{5305}\U{62EC}\U{7BA1}\U{7406}\U{8D39}\U{3001}\U{7533}\U{8D2D}\U{548C}\U{8D4E}\U{56DE}\U{8D39}\n3. **\U{6D41}\U{52A8}\U{6027}** - \U{8D44}\U{91D1}\U{8FDB}\U{51FA}\U{7684}\U{4FBF}\U{5229}\U{7A0B}\U{5EA6}\n4. **\U{5B89}\U{5168}\U{6027}** - \U{5E73}\U{53F0}\U{80CC}\U{666F}\U{548C}\U{5BA1}\U{8BA1}\U{60C5}\U{51B5}\n5. **\U{5408}\U{89C4}\U{8981}\U{6C42}** - \U{662F}\U{5426}\U{6EE1}\U{8DB3}\U{60A8}\U{673A}\U{6784}\U{7684}\U{5408}\U{89C4}\U{9700}\U{6C42}"
  const Answer3: string :=
    "\U{673A}\U{6784}\U{5F00}\U{6237}\U{901A}\U{5E38}\U{9700}\U{8981}\U{4EE5}\U{4E0B}\U{8D44}\U{6599}\U{FF1A}\n\n\U{2022} \U{516C}\U{53F8}\U{6CE8}\U{518C}\U{8BC1}\U{660E}\n\U{2022} \U{80A1}\U{4E1C}/\U{8463}\U{4E8B}\U{8EAB}\U{4EFD}\U{8BC1}\U{660E}\n\U{2022} \U{516C}\U{53F8}\U{7AE0}\U{7A0B}\n\U{2022} \U{94F6}\U{884C}\U{5F00}\U{6237}\U{8BC1}\U{660E}\n\U{2022} \U{5408}\U{683C}\U{6295}\U{8D44}\U{8005}\U{58F0}\U{660E}\n\U{2022} \U{6388}\U{6743}\U{4EE3}\U{8868}\U{59D4}\U{6258}\U{4E66}\n\n\U{5177}\U{4F53}\U{8981}\U{6C42}\U{53EF}\U{80FD}\U{56E0}\U{4EA7}\U{54C1}\U{800C}\U{5F02}\U{FF0C}\U{5EFA}\U{8BAE}\U{5728}\U{5F00}\U{6237}\U{52A9}\U{624B}\U{4E2D}\U{67E5}\U{770B}\U{8BE6}\U{7EC6}\U{6E05}\U{5355}\U{3002}"
  const Answer4: string :=
    "\U{5E74}\U{5316}\U{6536}\U{76CA}\U{7387}\U{FF08}APY\U{FF09}\U{662F}\U{5C06}\U{5F53}\U{524D}\U{6536}\U{76CA}\U{7387}\U{6309}\U{7167}\U{590D}\U{5229}\U{8BA1}\U{7B97}\U{63A8}\U{7B97}\U{5230}\U{4E00}\U{5E74}\U{7684}\U{9884}\U{671F}\U{6536}\U{76CA}\U{3002}\U{8BA1}\U{7B97}\U{516C}\U{5F0F}\U{4E3A}\U{FF1A}\n\nAPY = (1 + \U{65E5}\U{6536}\U{76CA}\U{7387})^365 - 1\n\n\U{9700}\U{8981}\U{6CE8}\U{610F}\U{7684}\U{662F}\U{FF0C}\U{663E}\U{793A}\U{7684}\U{5E74}\U{5316}\U{6536}\U{76CA}\U{901A}\U{5E38}\U{662F}\U{57FA}\U{4E8E}\U{8FD1}\U{671F}\U{6570}\U{636E}\U{8BA1}\U{7B97}\U{7684}\U{FF0C}\U{5B9E}\U{9645}\U{6536}\U{76CA}\U{53EF}\U{80FD}\U{4F1A}\U{968F}\U{5E02}\U{573A}\U{6761}\U{4EF6}\U{53D8}\U{5316}\U{3002}"

  /** `responses`: the canned answers, keyed by the exact question text. */
  const Responses: map<string, string> :=
    map[Question1 := Answer1, Question2 := Answer2, Question3 := Answer3, Question4 := Answer4]

  const Fallback: string :=
    "\U{611F}\U{8C22}\U{60A8}\U{7684}\U{63D0}\U{95EE}\U{FF01}\U{6211}\U{4F1A}\U{5C3D}\U{529B}\U{4E3A}\U{60A8}\U{89E3}\U{7B54}\U{3002}\U{5982}\U{679C}\U{60A8}\U{6709}\U{5173}\U{4E8E}\U{5177}\U{4F53}\U{4EA7}\U{54C1}\U{7684}\U{95EE}\U{9898}\U{FF0C}\U{53EF}\U{4EE5}\U{76F4}\U{63A5}\U{5728}\U{4EA7}\U{54C1}\U{8BE6}\U{60C5}\U{9875}\U{67E5}\U{770B}\U{FF0C}\U{6216}\U{8054}\U{7CFB}\U{6211}\U{4EEC}\U{7684}\U{4E13}\U{5C5E}\U{987E}\U{95EE}\U{83B7}\U{53D6}\U{66F4}\U{8BE6}\U{7EC6}\U{7684}\U{4FE1}\U{606F}\U{3002}"

  /** `responses[content] || fallback`: the canned answer to exactly this text,
      otherwise the fallback. */
  function Reply(content: string): (r: string)
    ensures content in Responses ==> r == Responses[content]
    ensures content !in Responses ==> r == Fallback
    ensures r != ""
  {
    if content in Responses && Responses[content] != "" then Responses[content] else Fallback
  }

  /** Every quick question has its own canned answer, distinct from the fallback. */
  lemma QuickRepliesAnswered()
    ensures forall q :: q in QuickReplies <==> q in Responses
    ensures forall q :: q in QuickReplies ==> Reply(q) != Fallback
  {
  }

  /** The answer is looked up by the text as typed, not as trimmed: a quick
      question with a trailing space gets the fallback. */
  lemma PaddedQuestionGetsFallback()
    ensures Trim(Question1 + " ") == Question1
    ensures Reply(Question1 + " ") == Fallback
  {
    assert !IsWhitespace(Question1[|Question1| - 1]);
    assert Question1 + " " !in Responses;
    TrimOneSpace(Question1);
  }

  /** A trailing space on text without surrounding whitespace is trimmed away. */
  lemma TrimOneSpace(s: string)
    requires s != [] && !IsWhitespace(s[0]) && !IsWhitespace(s[|s| - 1])
    ensures Trim(s + " ") == s
  {
    assert TrimStart(s + " ") == s + " ";
    assert (s + " ")[..|s|] == s;
    assert TrimEnd(s) == s;
  }

  class Chat {
    var messages: seq<Message>
    var input: string
    var isTyping: bool

    /** One greeting from the assistant, an empty input, nothing pending. */
    constructor ()
      ensures messages == [Message("1", Assistant, Greeting)] && input == "" && !isTyping
      ensures ShowQuickReplies() && !CanSend()
    {
      messages := [Message("1", Assistant, Greeting)];
      input := "";
      isTyping := false;
    }

    method SetInput(text: string)
      modifies this`input
      ensures input == text
    {
      input := text;
    }

    /** The quick questions show only while the greeting is the sole message. */
    predicate ShowQuickReplies()
      reads this`messages
    {
      |messages| == 1
    }

    /** The send button is enabled when the trimmed input is non-empty and no
        answer is pending. */
    function CanSend(): (r: bool)
      reads this`input, this`isTyping
      ensures r <==> !isTyping && exists i :: 0 <= i < |input| && !IsWhitespace(input[i])
    {
      TrimSpec(input);
      Trim(input) != "" && !isTyping
    }

    /** The first half of `handleSend`: blank text is ignored; otherwise the
        trimmed text is appended as the user's message, the input is cleared
        and an answer is pending. */
    method SendUserMessage(content: string, userId: string) returns (accepted: bool)
      modifies this`messages, this`input, this`isTyping
      ensures accepted <==> Trim(content) != ""
      ensures content == old(input) && old(CanSend()) ==> accepted
      ensures !accepted ==> messages == old(messages) && input == old(input) && isTyping == old(isTyping)
      ensures accepted ==> messages == old(messages) + [Message(userId, User, Trim(content))]
                           && input == "" && isTyping
    {
      if Trim(content) == "" {
        return false;
      }
      messages := messages + [Message(userId, User, Trim(content))];
      input := "";
      isTyping := true;
      accepted := true;
    }

    /** The second half, after the pause: the answer to the text as it was
        sent is appended and nothing is pending any more. */
    method ReceiveReply(content: string, replyId: string)
      modifies this`messages, this`isTyping
      ensures messages == old(messages) + [Message(replyId, Assistant, Reply(content))]
      ensures !isTyping
    {
      messages := messages + [Message(replyId, Assistant, Reply(content))];
      isTyping := false;
    }

    /** A whole send: two messages, the user's then the assistant's, after the
        earlier ones, which stay as they were. */
    method HandleSend(content: string, userId: string, replyId: string)
      modifies this`messages, this`input, this`isTyping
      ensures Trim(content) == "" ==> messages == old(messages) && input == old(input) && isTyping == old(isTyping)
      ensures Trim(content) != "" ==>
        && messages == old(messages) + [Message(userId, User, Trim(content)), Message(replyId, Assistant, Reply(content))]
        && input == "" && !isTyping
      ensures Trim(content) != "" ==> !ShowQuickReplies()
    {
      ghost var before := messages;
      var accepted := SendUserMessage(content, userId);
      if accepted {
        ghost var question := Message(userId, User, Trim(content));
        ghost var answer := Message(replyId, Assistant, Reply(content));
        assert messages == before + [question];
        ReceiveReply(content, replyId);
        assert messages == before + [question] + [answer];
        assert before + [question] + [answer] == before + [question, answer];
      }
    }
  }
}
