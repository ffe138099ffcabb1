/** The prompt templates of the chat assistant. Every template starts
    from the base prompt, keeps its system prompt and replaces the user
    prompt by a text built around the conversation (and, for the trivia
    and resume templates, the resume). The template texts are reproduced
    character for character. */
module Prompts {
  import opened Common
  import opened ChatSchema

  /** A prompt object: the system prompt and the user prompt. */
  datatype Prompt = Prompt(systemPrompt: string, prompt: string)

  /** Chat message content: plain text, or a list of parts. */
  datatype Part = TextPart(text: string) | ImageUrl(url: string)
  datatype Content = Text(text: string) | Parts(parts: seq<Part>)
  datatype Message = Message(role: string, content: Content)

  const SystemPrompt: string :=
    @"You are a senior software engineer doing an interview with a tech company. You have extensive experience in designing and implementing scalable systems. You have a deep understanding of various programming languages, frameworks, and tools. You are proficient in problem-solving, debugging, and optimizing code. You are also an expert in system design, architecture, and best practices."

  const BaseHeading: string := "# Conversation \n"
  const ConversationHeading: string := "# Conversation\n"
  const ResumeHeading: string := "# Resume\n"
  /** Between the resume and the conversation in the trivia and resume
      templates. */
  const ResumeToConversation: string := "\n\n# Conversation\n"

  const ClassifyHead: string := @"# Question Categories
## Trivia
Conversations focus on definitions, technical explanations, or conceptual comparisons. They typically contain factual queries using phrases like ""what is"", ""explain"", or ""compare"".
### Trivia Examples
1. What are the 4 pillars of OOP?
2. Tell me about the differences between next.js and react router.
3. What is the difference between Agile and Waterfall methodologies?
4. Explain the concept of inheritance in programming.
5. What is the difference between a process and a thread?
6. When would you use Kafka over RabbitMQ?
7. What is the difference between data science and machine learning?
8. Explain the CI/CD pipeline in DevOps.
9. What is the difference between unit testing and integration testing?
10. What is the role of QA in software development?
11. What is the purpose of a container in DevOps? 
12. How are containers used in Kubernetes?

## Resume
Discussions center around past experiences, challenges, projects, or teamwork scenarios. They often include phrases like ""tell me about a time"", ""describe an experience"", or ""how did you handle"".
### Resume Examples
1. Tell me about a time where you had to work closely with someone whose personality was very different from yours.
2. Describe a challenging backend problem you've solved.
3. How do you handle tight deadlines?
4. Can you describe a project where you had to learn a new technology?
5. Tell me about a time when you had to mentor someone.
6. Describe a time when you had to debug a complex issue.
7. Tell me about your project in your last company. What technologies did you use? What roadblocks did you run into and how did you solve them?
8. Can you describe a time when you had to optimize a slow system?
9. Tell me about a time when you had to work with a difficult team member.
10. Describe a project where you had to integrate multiple systems.

## Coding
Conversations involve problem-solving with algorithms or code implementation. They typically mention specific programming languages, contain technical constraints, or request optimization approaches.
### Coding Examples
1. Implement a binary search algorithm.
2. Given two sorted arrays nums1 and nums2 of size m and n respectively, return the median of the two sorted arrays.
3. Write a function to check if a string is a palindrome.
4. Implement a function to find the longest common prefix in an array of strings.
5. Write a function to reverse a linked list.
6. Debug this function.
7. Refactor this frontend code into multiple components.
8. Implement a quicksort algorithm.
9. Write a function to find the shortest path in a graph.
10. Implement a function to check if a number is prime.

## System Design
Discussions focus on architectural components, scalability, or distributed systems. They frequently mention tradeoffs, system requirements, or large-scale considerations.
### System Design Examples
1. Design a URL shortening service like bit.ly.
2. Create an online timecard system for amazon warehouse employees.
3. Develop a chat application.
4. Build a ride-sharing service.
5. Construct an e-commerce platform.
6. Implement a recommendation system.
7. Develop a search engine.
8. Create a social media platform.
9. Design a database schema for a library management system.
10. Design classes for a banking system.

## Clarify
This category is rare. Prioritize selecting system design and coding categories first. These questions request deeper analysis, constraints, or tradeoffs before solving. 
### Clarify Examples
1. Generate a list of clarifying questions for this system design.
2. Analyze these clarifications with respect to the system you're designing.
3. What are the potential scalability issues with this design?
4. What are the potential security concerns with this design?
5. What are the potential performance bottlenecks with this design?

# Conversation
"

  /** The last line of the classify request, naming the categories by
      their values. */
  const ClassifyRequest: string :=
    RequestLead
      + CategoryName(Trivia) + ", " + CategoryName(Resume) + ", " + CategoryName(Coding) + ", "
      + CategoryName(SystemDesign) + ", or " + CategoryName(Clarify) + "."

  const ClassifyTailHead: string := @"

# Request
"

  const ClassifyTail: string := ClassifyTailHead + ClassifyRequest

  const TriviaRequest: string := @"

# Request
Answer the technical trivia or concept-check questions from the conversation above.
First provide a brief, high-level explanation that is technically accurate in an outline. 
Next, Generate a confident, conversational version of the answer suitable for a live interview.
If relevant, include an example from my resume to support or discuss the question in context. You may reword bullet points for clarity or flow, but do not lie and alter technologies used or any metrics.

All output should be cleanly formatted for fast scanning and mental prep.

# Output Format
Interview Response (Conversational)
- How I would respond to the question: clear, confident, concise, and natural
Outline
- Main concepts
- Definitions
Resume Example 
- Project name or context  
- Specific task/result that relates to the topic"

  const ResumeRequest: string := @"

# Request
Given the conversation above, answer the behavioral and technical project questions. 
Use the resume provided and reference relevant project experiences, technical accomplishments, or job responsibilities that best demonstrate my qualifications in response to the question.
Use the STAR format (Situation, Task, Action, Result) for each answer. Begin each response with a brief outline of the project, role, or experience that will be used to answer the question, and explain how it connects to the question being asked.

# Output Format
Interview Response (Conversational)
- How I would respond to the question: clear, confident, concise, and natural. This response is in the STAR format.
Resume Excerpt
- The project or experience bullet points referenced in the resume if present"

  const SystemDesignRequest: string := @"

# Request
Given the conversation and/or image above between an stakeholder and an engineer, where the user describes a system they want to build and the engineer asks clarifying questions, synthesize the relevant information and provide a comprehensive, in-depth system design.
First provide a detailed system design based on the clarified requirements. Organize this information as a structured outline. Each major section should represent a service or core part of the system (frontend, backend, database design, infrastructure, etc.) Mention how components and services interact with each other. 
Finally, return a list of clarifying questions that should be asked to improve the system design. Focus on decisions, trade-offs such as monolith vs microservices, database types, CAP theorem, scalability, availability, system architecture, best language to use, etc.

All output should be cleanly formatted for fast scanning and mental prep.

# Output Format
Interview Response (Conversational)
- How I would respond to the question: clear, confident, concise, and natural.
Outline
- Core services
- Notes on the services interact
Clarifying Questions
- Questions & potential answers followed with a discussion about tradeoffs"

  const CodingRequest: string := @"

# Request
Solve the coding question or request in the conversation and/or image. This may include LeetCode problems, debugging tasks, code refactoring, or general algorithm challenges.
First review the conversation for context and clarification - Identify any missing details or ambiguity and ask clarifying questions to help identify edge cases or constraints.
Next, provide potential techniques or data structures that could be applied to solve the question or request.
Then outline the est approach to solving the problem clearly and logically.
Finally implement the optimal python solution based on the discussion and outline. Mention the time and space complexity of the selected python solution.

All output should be cleanly formatted for fast scanning and mental prep.

# Output Format
Clarifying Questions
- How I would respond to the question: clear, confident, concise, and natural.
Potential techniques or data structures
- Technique A
- Data structures
Outline
- Outline of potential solution
Python solution
- Code block of solution
- Time and Space complexity"

  const ClarifyRequest: string := @"

# Request
Given the conversation transcript above about a system design discussion or a coding problem. Carefully review the transcript for missing context, ambiguous requirements, or edge cases that need clarification.
Generate a structured list of 5–10 clarifying questions focused on decisions and trade-offs such as:
- Monolith vs microservices
- Type of database (SQL/NoSQL/time-series/etc.)
- Application of the CAP theorem
- Performance, scalability, latency, throughput
- Availability and fault-tolerance
- System architecture, API design, programming language/runtime choice
- Functional ambiguities and constraints in the coding problem
For each question, provide a detailed analysis and discussion of possible answers and how they would impact the solution.

All output should be cleanly formatted for fast scanning and mental prep.

# Output Format
Question 1: [Insert question here]  
Analysis: [Trade-offs, assumptions, missing data, etc.]  

Question 2: [Insert question here]  
Analysis: [...]"

  const SummarizeRequest: string := @"

# Request
Summarize the conversation above and give me a quick overview and outline. Use the # Format below

Output Format
### Overview
3-5 sentence overview of the conversation
### Outline
- Main Topic 1
    - Subtopic 1
    - Subtopic 2"

  /** BasePrompt. */
  function BasePrompt(conversation: string): (p: Prompt)
    ensures p.systemPrompt == SystemPrompt
    ensures OccursAt(p.prompt, conversation, |BaseHeading|) && |p.prompt| == |BaseHeading| + |conversation|
  {
    OccursAfter(BaseHeading, conversation, "");
    Prompt(SystemPrompt, BaseHeading + conversation)
  }

  function ClassifyPrompt(conversation: string): Prompt {
    BasePrompt(conversation).(prompt := ClassifyHead + conversation + ClassifyTail)
  }

  function TriviaPrompt(conversation: string, resume: string): Prompt {
    BasePrompt(conversation).(prompt := ResumeHeading + resume + ResumeToConversation + conversation + TriviaRequest)
  }

  function ResumePrompt(text: string, resume: string): Prompt {
    BasePrompt(text).(prompt := ResumeHeading + resume + ResumeToConversation + text + ResumeRequest)
  }

  function SystemDesignPrompt(text: string): Prompt {
    BasePrompt(text).(prompt := ConversationHeading + text + SystemDesignRequest)
  }

  function CodingPrompt(text: string): Prompt {
    BasePrompt(text).(prompt := ConversationHeading + text + CodingRequest)
  }

  function ClarifyPrompt(text: string): Prompt {
    BasePrompt(text).(prompt := ConversationHeading + text + ClarifyRequest)
  }

  function SummarizePrompt(text: string): Prompt {
    BasePrompt(text).(prompt := ConversationHeading + text + SummarizeRequest)
  }

  /** get_messages: the system message, then the user message. */
  function GetMessages(p: Prompt): (m: seq<Message>)
    ensures |m| == 2
    ensures m[0].role == "system" && m[0].content == Text(p.systemPrompt)
    ensures m[1].role == "user" && m[1].content == Text(p.prompt)
  {
    [Message("system", Text(p.systemPrompt)), Message("user", Text(p.prompt))]
  }

  /** Every template keeps the base system prompt. */
  lemma TemplatesKeepSystemPrompt(conversation: string, resume: string)
    ensures ClassifyPrompt(conversation).systemPrompt == SystemPrompt
    ensures TriviaPrompt(conversation, resume).systemPrompt == SystemPrompt
    ensures ResumePrompt(conversation, resume).systemPrompt == SystemPrompt
    ensures SystemDesignPrompt(conversation).systemPrompt == SystemPrompt
    ensures CodingPrompt(conversation).systemPrompt == SystemPrompt
    ensures ClarifyPrompt(conversation).systemPrompt == SystemPrompt
    ensures SummarizePrompt(conversation).systemPrompt == SystemPrompt
  {
  }

  // Every template's prompt holds the conversation text, right after the
  // template's heading.

  lemma ClassifyHoldsConversation(c: string)
    ensures OccursAt(ClassifyPrompt(c).prompt, c, |ClassifyHead|)
  {
    OccursAfter(ClassifyHead, c, ClassifyTail);
  }

  lemma TriviaHoldsConversation(c: string, resume: string)
    ensures OccursAt(TriviaPrompt(c, resume).prompt, c, |ResumeHeading + resume + ResumeToConversation|)
  {
    OccursAfter(ResumeHeading + resume + ResumeToConversation, c, TriviaRequest);
  }

  lemma ResumeHoldsConversation(c: string, resume: string)
    ensures OccursAt(ResumePrompt(c, resume).prompt, c, |ResumeHeading + resume + ResumeToConversation|)
  {
    OccursAfter(ResumeHeading + resume + ResumeToConversation, c, ResumeRequest);
  }

  lemma SystemDesignHoldsConversation(c: string)
    ensures OccursAt(SystemDesignPrompt(c).prompt, c, |ConversationHeading|)
  {
    OccursAfter(ConversationHeading, c, SystemDesignRequest);
  }

  lemma CodingHoldsConversation(c: string)
    ensures OccursAt(CodingPrompt(c).prompt, c, |ConversationHeading|)
  {
    OccursAfter(ConversationHeading, c, CodingRequest);
  }

  lemma ClarifyHoldsConversation(c: string)
    ensures OccursAt(ClarifyPrompt(c).prompt, c, |ConversationHeading|)
  {
    OccursAfter(ConversationHeading, c, ClarifyRequest);
  }

  lemma SummarizeHoldsConversation(c: string)
    ensures OccursAt(SummarizePrompt(c).prompt, c, |ConversationHeading|)
  {
    OccursAfter(ConversationHeading, c, SummarizeRequest);
  }

  /** In the trivia and resume templates the resume comes first and the
      conversation after it. */
  lemma ResumeBeforeConversation(conversation: string, resume: string)
    ensures OccursAt(TriviaPrompt(conversation, resume).prompt, resume, |ResumeHeading|)
    ensures OccursAt(TriviaPrompt(conversation, resume).prompt, conversation,
      |ResumeHeading| + |resume| + |ResumeToConversation|)
    ensures OccursAt(ResumePrompt(conversation, resume).prompt, resume, |ResumeHeading|)
    ensures OccursAt(ResumePrompt(conversation, resume).prompt, conversation,
      |ResumeHeading| + |resume| + |ResumeToConversation|)
  {
    var front := ResumeHeading + resume + ResumeToConversation;
    OccursAfter(front, conversation, TriviaRequest);
    OccursAfter(front, conversation, ResumeRequest);
    OccursAfter(ResumeHeading, resume, ResumeToConversation + conversation + TriviaRequest);
    OccursAfter(ResumeHeading, resume, ResumeToConversation + conversation + ResumeRequest);
    assert front + conversation + TriviaRequest
      == ResumeHeading + resume + (ResumeToConversation + conversation + TriviaRequest);
    assert front + conversation + ResumeRequest
      == ResumeHeading + resume + (ResumeToConversation + conversation + ResumeRequest);
  }

  /** Where the request line names each category. */
  function RequestIndex(c: Category): nat {
    var pre := RequestLead;
    match c
    case Trivia => |pre|
    case Resume => |pre| + |CategoryName(Trivia)| + 2
    case Coding => |pre| + |CategoryName(Trivia)| + |CategoryName(Resume)| + 4
    case SystemDesign => |pre| + |CategoryName(Trivia)| + |CategoryName(Resume)| + |CategoryName(Coding)| + 6
    case Clarify =>
      |pre| + |CategoryName(Trivia)| + |CategoryName(Resume)| + |CategoryName(Coding)| + |CategoryName(SystemDesign)| + 11
  }

  const RequestLead: string := "Classify the conversation above into one of the categories: "

  lemma SelfOccurs(t: string)
    ensures OccursAt(t, t, 0)
  {
    assert t[0..|t|] == t;
  }

  /** A list written "n1, n2, n3, n4, or n5." after a lead. */
  function ListText(lead: string, n1: string, n2: string, n3: string, n4: string, n5: string): string {
    lead + n1 + ", " + n2 + ", " + n3 + ", " + n4 + ", or " + n5 + "."
  }

  lemma ListedFirst(lead: string, n1: string, n2: string, n3: string, n4: string, n5: string)
    ensures OccursAt(ListText(lead, n1, n2, n3, n4, n5), n1, |lead|)
  {
    var p2 := lead + n1;
    var p3 := p2 + ", ";
    var p4 := p3 + n2;
    var p5 := p4 + ", ";
    var p6 := p5 + n3;
    var p7 := p6 + ", ";
    var p8 := p7 + n4;
    var p9 := p8 + ", or ";
    var p10 := p9 + n5;
    SelfOccurs(n1);
    OccursInSuffix(lead, n1, n1, 0);
    OccursInPrefix(p2, ", ", n1, |lead|);
    OccursInPrefix(p3, n2, n1, |lead|);
    OccursInPrefix(p4, ", ", n1, |lead|);
    OccursInPrefix(p5, n3, n1, |lead|);
    OccursInPrefix(p6, ", ", n1, |lead|);
    OccursInPrefix(p7, n4, n1, |lead|);
    OccursInPrefix(p8, ", or ", n1, |lead|);
    OccursInPrefix(p9, n5, n1, |lead|);
    OccursInPrefix(p10, ".", n1, |lead|);
  }

  lemma ListedSecond(lead: string, n1: string, n2: string, n3: string, n4: string, n5: string)
    ensures OccursAt(ListText(lead, n1, n2, n3, n4, n5), n2, |lead| + |n1| + 2)
  {
    var p3 := lead + n1 + ", ";
    var p4 := p3 + n2;
    var p5 := p4 + ", ";
    var p6 := p5 + n3;
    var p7 := p6 + ", ";
    var p8 := p7 + n4;
    var p9 := p8 + ", or ";
    var p10 := p9 + n5;
    SelfOccurs(n2);
    OccursInSuffix(p3, n2, n2, 0);
    OccursInPrefix(p4, ", ", n2, |p3|);
    OccursInPrefix(p5, n3, n2, |p3|);
    OccursInPrefix(p6, ", ", n2, |p3|);
    OccursInPrefix(p7, n4, n2, |p3|);
    OccursInPrefix(p8, ", or ", n2, |p3|);
    OccursInPrefix(p9, n5, n2, |p3|);
    OccursInPrefix(p10, ".", n2, |p3|);
  }

  lemma ListedThird(lead: string, n1: string, n2: string, n3: string, n4: string, n5: string)
    ensures OccursAt(ListText(lead, n1, n2, n3, n4, n5), n3, |lead| + |n1| + |n2| + 4)
  {
    var p5 := lead + n1 + ", " + n2 + ", ";
    var p6 := p5 + n3;
    var p7 := p6 + ", ";
    var p8 := p7 + n4;
    var p9 := p8 + ", or ";
    var p10 := p9 + n5;
    SelfOccurs(n3);
    OccursInSuffix(p5, n3, n3, 0);
    OccursInPrefix(p6, ", ", n3, |p5|);
    OccursInPrefix(p7, n4, n3, |p5|);
    OccursInPrefix(p8, ", or ", n3, |p5|);
    OccursInPrefix(p9, n5, n3, |p5|);
    OccursInPrefix(p10, ".", n3, |p5|);
  }

  lemma ListedFourth(lead: string, n1: string, n2: string, n3: string, n4: string, n5: string)
    ensures OccursAt(ListText(lead, n1, n2, n3, n4, n5), n4, |lead| + |n1| + |n2| + |n3| + 6)
  {
    var p7 := lead + n1 + ", " + n2 + ", " + n3 + ", ";
    var p8 := p7 + n4;
    var p9 := p8 + ", or ";
    var p10 := p9 + n5;
    SelfOccurs(n4);
    OccursInSuffix(p7, n4, n4, 0);
    OccursInPrefix(p8, ", or ", n4, |p7|);
    OccursInPrefix(p9, n5, n4, |p7|);
    OccursInPrefix(p10, ".", n4, |p7|);
  }

  lemma ListedFifth(lead: string, n1: string, n2: string, n3: string, n4: string, n5: string)
    ensures OccursAt(ListText(lead, n1, n2, n3, n4, n5), n5, |lead| + |n1| + |n2| + |n3| + |n4| + 11)
  {
    var p9 := lead + n1 + ", " + n2 + ", " + n3 + ", " + n4 + ", or ";
    SelfOccurs(n5);
    OccursInSuffix(p9, n5, n5, 0);
    OccursInPrefix(p9 + n5, ".", n5, |p9|);
  }

  lemma RequestNamesCategory(c: Category)
    ensures OccursAt(ClassifyRequest, CategoryName(c), RequestIndex(c))
  {
    var n1, n2, n3, n4, n5 := CategoryName(Trivia), CategoryName(Resume), CategoryName(Coding),
      CategoryName(SystemDesign), CategoryName(Clarify);
    assert ClassifyRequest == ListText(RequestLead, n1, n2, n3, n4, n5);
    match c
    case Trivia => ListedFirst(RequestLead, n1, n2, n3, n4, n5);
    case Resume => ListedSecond(RequestLead, n1, n2, n3, n4, n5);
    case Coding => ListedThird(RequestLead, n1, n2, n3, n4, n5);
    case SystemDesign => ListedFourth(RequestLead, n1, n2, n3, n4, n5);
    case Clarify => ListedFifth(RequestLead, n1, n2, n3, n4, n5);
  }

  /** An occurrence in the tail of a prompt is an occurrence in the
      prompt. */
  lemma OccursInTail(head: string, conversation: string, tailHead: string, tail: string, u: string, i: int)
    requires OccursAt(tail, u, i)
    ensures OccursAt(head + conversation + (tailHead + tail), u, |head| + |conversation| + |tailHead| + i)
  {
    OccursInSuffix(tailHead, tail, u, i);
    OccursInSuffix(head + conversation, tailHead + tail, u, |tailHead| + i);
  }

  /** The classify request names every category by its value. */
  lemma ClassifyNamesEveryCategory(conversation: string, c: Category)
    ensures OccursAt(ClassifyPrompt(conversation).prompt, CategoryName(c),
      |ClassifyHead| + |conversation| + |ClassifyTailHead| + RequestIndex(c))
  {
    RequestNamesCategory(c);
    OccursInTail(ClassifyHead, conversation, ClassifyTailHead, ClassifyRequest, CategoryName(c), RequestIndex(c));
  }


}
