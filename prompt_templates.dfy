/**
 * The prompt texts the applications send to the language model, one
 * function per template, each taking the already-formatted values it
 * interpolates. Line breaks are those of the templates; indentation is kept.
 */
module PromptTemplates {
  // The literal text of `SteamIdeasPrompt`, between the values it interpolates.
  const SteamIdeasOpening := "\n            Develop"
  const SteamIdeas1 :=
    " a comprehensive and creative set of STEAM (Science, Technology, Engineering, Arts, Mathematics) integration possibilities\n"
    + "            for the topic: \""
  const SteamIdeas2 := "\" tailored exactly for learners of age "
  const SteamIdeas3 := " years. Make sure that the content is aligned with the cognitive abilities of the age group. The time for this activity should be about "
  const SteamIdeas4 :=
    " minutes. Also provide examples from real world, so that the output is impactful and meaningful.\n"
    + "\n"
    + "            The specified learning outcomes are:\n"
    + "            "
  const SteamIdeas5 :=
    ".\n"
    + "\n"
    + "            Provide a detailed description of how to creatively and reliably integrate each of the STEAM disciplines into this topic, emphasizing hands-on\n"
    + "            activities, interdisciplinary projects, and relevant thought-provoking discussions. Include examples and practical explanations that showcase the\n"
    + "            interconnectedness of these areas. Be creative but do not stary too far from the topic. Be realistic. Structure your output using clear headings, sub-headings, and bullet points where necessary, to make it easy to read.\n"
    + "            Use markdown style, for example, use **Heading** for headings and *italic* for italics.\n"
    + "            "

  /** The Ideas prompt of `generate_prompt`, with `outcomes` already joined by `", "` and the time in decimal. */
  function SteamIdeasPrompt(topic: string, outcomes: string, ageGroup: string, timeMinutes: string): string
  {
    SteamIdeasOpening + (SteamIdeas1 + topic + SteamIdeas2 + ageGroup + SteamIdeas3 + timeMinutes
      + SteamIdeas4 + outcomes + SteamIdeas5)
  }

  // The literal text of `SteamLessonPrompt`, between the values it interpolates.
  const SteamLessonOpening := "\n           Create"
  const SteamLesson1 := " an optimized and relevant lesson plan for the topic: "
  const SteamLesson2 :=
    "\n"
    + "            for learners who are "
  const SteamLesson3 := ". The classroom session is "
  const SteamLesson4 :=
    " minutes long. Also give a brief context about the location that is being used in the output.\n"
    + "\n"
    + "            The learning outcomes for this lesson are:\n"
    + "            "
  const SteamLesson5 :=
    ".\n"
    + "            \n"
    + "            **Location Context:**\n"
    + "            Location Name: "
  const SteamLesson6 :=
    "\n"
    + "\n"
    + "            Given this context, generate a detailed lesson plan which follows the 5E model- Engage, Explore, Explain, Elaborate and Evaluate, which includes STEAM education related integrations.\n"
    + "            The lesson plan should include:\n"
    + "\n"
    + "            *   **Title of the Lesson**\n"
    + "            *   **Learning Objectives** (Clearly restate the core learning outcomes, ensuring they are measurable and aligned with the desired knowledge, skills, and attitudes for students.)\n"
    + "             *  **Engage** (Design an activity that captures students' attention at the beginning of the lesson. This activity should activate prior knowledge and spark curiosity about the new topic.Consider using questions, hands-on activities, or a thought-provoking visual or story.)\n"
    + "            *   **Explore** (Develop an interactive and exploratory activity where students can engage directly with the content in a hands-on or experiential way. This phase should allow students to make observations, test hypotheses, or solve problems in a safe and supportive environment.)\n"
    + "            *  **Explain** (Present clear explanations to help students make sense of the new concepts or skills they have encountered during exploration. Incorporate student-led discussions, demonstrations, or real-life examples to deepen their understanding.)\n"
    + "            *   **Elaborate** (Create an extension activity that challenges students to apply their learning in new or real-world contexts. Encourage them to make connections to broader concepts, current events, or personal experiences. This phase should help them think critically and extend their knowledge beyond the lesson.)\n"
    + "            *  **Evaluate** (Describe an evaluation method to assess whether students have met the learning objectives. This could include formative assessments such as quizzes, presentations, reflections, or peer evaluations. Provide rubrics or criteria for evaluating student understanding.)\n"
    + "            *   **Materials Needed** (List all materials required for the activities in the lesson plan. Be specific and include any tools, technology, or resources that will support the lesson.)\n"
    + "            *   **Detailed Lesson Procedure** (Outline the steps for the lesson, providing timing estimates for each phase (Engage, Explore, Explain, Elaborate, Evaluate). Ensure the activities are well-paced and offer opportunities for student reflection and inquiry.)\n"
    + "            *   **STEAM Integration** (Explicitly describe how Science, Technology, Engineering, Arts, and Mathematics are interconnected within the activities. Highlight how each discipline is applied in creative and meaningful ways, ensuring the integration supports holistic learning and encourages cross-disciplinary thinking.)\n"
    + "            "

  /** The lesson-plan prompt of `generate_prompt`, with `outcomes` already joined by `", "` and the time in decimal. */
  function SteamLessonPrompt(topic: string, outcomes: string, ageGroup: string, timeMinutes: string, locationName: string): string
  {
    SteamLessonOpening + (SteamLesson1 + topic + SteamLesson2 + ageGroup + SteamLesson3
      + timeMinutes + SteamLesson4 + outcomes + SteamLesson5 + locationName + SteamLesson6)
  }

  // The literal text of `LegacyIdeasPrompt`, between the values it interpolates.
  const LegacyIdeas1 :=
    "\n"
    + "        Develop a comprehensive and creative set of STEAM (Science, Technology, Engineering, Arts, Mathematics) integration possibilities\n"
    + "        for the topic: \""
  const LegacyIdeas2 := "\" tailored for learners aged "
  const LegacyIdeas3 :=
    ".\n"
    + "\n"
    + "        The specified learning outcomes are:\n"
    + "        "
  const LegacyIdeas4 :=
    ".\n"
    + "\n"
    + "        Provide a detailed description of how to creatively and reliably integrate each of the STEAM disciplines into this topic, emphasizing hands-on\n"
    + "        activities, interdisciplinary projects, and relevant thought-provoking discussions. Include examples and practical explanations that showcase the\n"
    + "        interconnectedness of these areas. Structure your output using clear headings, sub-headings, and bullet points where necessary, to make it easy to read.\n"
    + "        Use markdown style, for example, use **Heading** for headings and *italic* for italics.\n"
    + "        "

  /** The single prompt of the older application's `generate_steam_ideas`, with `outcomes` already joined by `", "`. */
  function LegacyIdeasPrompt(topic: string, outcomes: string, ageGroup: string): string
  {
    LegacyIdeas1 + topic + LegacyIdeas2 + ageGroup + LegacyIdeas3 + outcomes + LegacyIdeas4
  }

  // The literal text of `WebIdeasPrompt`, between the values it interpolates.
  const WebIdeasOpening := "\n**Task:** Generate"
  const WebIdeas1 :=
    " highly creative and practical STEAM (Science, Technology, Engineering, Arts, and Mathematics) integration ideas.\n"
    + "\n"
    + "**Topic:** \""
  const WebIdeas2 :=
    "\"\n"
    + "**Target Learners:** Age "
  const WebIdeas3 :=
    " years\n"
    + "**Activity Duration:** Approximately "
  const WebIdeas4 :=
    " minutes\n"
    + "**Learning Outcomes:**\n"
  const WebIdeas5 :=
    "\n"
    + "\n"
    + "**Instructions:**\n"
    + "\n"
    + "You are an expert in STEAM education and curriculum design. Your goal is to develop a comprehensive and engaging set of STEAM integration ideas specifically for the topic \""
  const WebIdeas6 := "\" and learners of age "
  const WebIdeas7 :=
    ".\n"
    + "\n"
    + "The generated ideas should be:\n"
    + "\n"
    + "* **Creative and Innovative:** Think outside the box and propose novel approaches to STEAM integration.\n"
    + "* **Practical and Realistic:** Ideas should be feasible to implement in a classroom or learning environment with typical resources.\n"
    + "* **Age-Appropriate:** Content and complexity must be suitable for the cognitive abilities of "
  const WebIdeas8 :=
    "-year-old learners.\n"
    + "* **Comprehensive:** Cover a range of integration possibilities, ideally touching upon each of the STEAM disciplines (Science, Technology, Engineering, Arts, and Mathematics) in meaningful ways.\n"
    + "* **Impactful and Meaningful:** The ideas should connect the topic to real-world contexts and make learning engaging and memorable for students.\n"
    + "* **Actionable:** Provide enough detail so that an educator can understand and potentially implement the ideas.\n"
    + "\n"
    + "**Output Format:**\n"
    + "\n"
    + "Structure your output in Markdown format for clear readability. Use headings, sub-head ings, and bullet points where necessary, to make it easy to read. **Language:** English.\n"
    + " "

  /** The Ideas prompt of the browser client's `generatePrompt`, given the bullet list of outcomes. */
  function WebIdeasPrompt(topic: string, outcomesList: string, ageGroup: string, timeMinutes: string): string
  {
    WebIdeasOpening + (WebIdeas1 + topic + WebIdeas2 + ageGroup + WebIdeas3 + timeMinutes
      + WebIdeas4 + outcomesList + WebIdeas5 + topic + WebIdeas6 + ageGroup + WebIdeas7 + ageGroup
      + WebIdeas8)
  }

  // The literal text of `WebLessonPrompt`, between the values it interpolates.
  const WebLessonOpening := "\n**Task:** Create"
  const WebLesson1 :=
    " a detailed and optimized Lesson Plan following the 5E Model for STEAM Education.\n"
    + "\n"
    + "**Topic:** \""
  const WebLesson2 :=
    "\"\n"
    + "**Target Learners:** Age "
  const WebLesson3 :=
    " years\n"
    + "**Session Duration:** "
  const WebLesson4 :=
    " minutes\n"
    + "**Location Context:** "
  const WebLesson5 :=
    "\n"
    + "**Learning Outcomes:**\n"
  const WebLesson6 :=
    "\n"
    + "\n"
    + "**Instructions:**\n"
    + "\n"
    + "You are an experienced educator specializing in STEAM curriculum design and the 5E instructional model (Engage, Explore, Explain, Elaborate, Evaluate). Your task is to create a highly effective and engaging lesson plan for the topic \""
  const WebLesson7 := "\" tailored for "
  const WebLesson8 :=
    "-year-old learners.\n"
    + "\n"
    + "The Lesson Plan must adhere to the 5E model and should:\n"
    + "\n"
    + "* **Engage:** Start with an activity that immediately captures students' attention, activates prior knowledge, and sparks curiosity about \""
  const WebLesson9 :=
    "\".\n"
    + "* **Explore:** Develop an hands-on, interactive exploratory activity that allows students to directly investigate \""
  const WebLesson10 :=
    "\".\n"
    + "* **Explain:** Provide clear and concise explanations of the concepts or skills explored.\n"
    + "* **Elaborate:** Design an extension activity that challenges students to apply their new knowledge and skills in a novel or real-world context.\n"
    + "* **Evaluate:** Specify a method for evaluating student learning and assessing whether the learning outcomes have been met.\n"
    + "\n"
    + "**STEAM Integration:** Explicitly integrate STEAM principles and activities throughout each phase of the 5E model.\n"
    + "\n"
    + "**Practical Details:**\n"
    + "\n"
    + "* **Materials Needed:** List all materials and resources required for the lesson.\n"
    + "* **Detailed Procedure:** Provide a step-by-step procedure for the entire lesson, including time estimates for each phase.\n"
    + "\n"
    + "**Output Format:**\n"
    + "\n"
    + "Structure the Lesson Plan clearly in Markdown format using the 5E headings (Engage, Explore, Explain, Elaborate, Evaluate). **Language:** English.\n"
    + " "

  /** The lesson-plan prompt of the browser client's `generatePrompt`, given the bullet list of outcomes and the location already defaulted. */
  function WebLessonPrompt(topic: string, outcomesList: string, ageGroup: string, timeMinutes: string, location: string): string
  {
    WebLessonOpening + (WebLesson1 + topic + WebLesson2 + ageGroup + WebLesson3 + timeMinutes
      + WebLesson4 + location + WebLesson5 + outcomesList + WebLesson6 + topic + WebLesson7
      + ageGroup + WebLesson8 + topic + WebLesson9 + topic + WebLesson10)
  }
}
